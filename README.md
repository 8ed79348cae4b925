# Dialog interception, activity readiness and temporary-file bookkeeping

A Dafny model of three small state machines from an Android automation framework
that embeds the Android WebDriver:

- **SeleniumAndroid** (`selenium_android.dfy`): the WebView chrome client. It
  intercepts JavaScript `alert`, `confirm` and `prompt` dialogs, wraps each as an
  `AndroidAlert` and queues it in `unhandledAlerts`. An alert can be read
  (`GetText`), given reply text (`SendKeys`, prompts only), accepted or dismissed.
  Accepting or dismissing takes the alert off the queue and resolves the WebView's
  `JsResult`. `JsResult` is a class that logs every resolution call (`Confirm`,
  `ConfirmWith(s)`, `Cancel`). The module also models the page-load-done decision
  of `onProgressChanged`.
- **BaiduCafe** (`baidu_cafe.dfy`): `launchActivityIfNotAvailable`, the set-up loop
  of a Cafe test case. Each pass probes for the activity under a 5000 ms timeout.
  With the activity class recorded, after every timeout it presses HOME, sleeps 1000 ms and runs
  `am start -a android.intent.action.MAIN -n <package>/<class>` with a 3000 ms
  timeout. The loop writes every effect to an action trace. The probe is an oracle:
  a script of outcomes.
- **SeleniumIo** (`selenium_io.dfy`): `TemporaryFilesystem`. It checks its base
  directory on construction and tracks the directories it creates. It deletes only
  tracked directories, one at a time (`DeleteTempDir`) or all together
  (`DeleteTemporaryFiles`). The `webdriver.reap_profile` property can switch
  deletion off. The disk is an abstract set of existing paths.
- **Wrappers** (`wrappers.dfy`): `Option` for Java's nullable references, `Result`
  for thrown exceptions.

Each state-changing Java method is a Dafny method on a class. Its postcondition
gives the new state through a specification function: `RemoveFirst` for the alert
queue, `Launch`/`Loop` for the readiness loop, `AfterDeleteTempDir` and `Sweep` for
the file bookkeeping. The promised properties are lemmas about those functions. Each
module ends with scenario methods. These build fresh objects, call the modelled
methods, and state what a caller can conclude.

Where the code and its design intent differ, the model follows the code:
- An alert has no resolved flag. A second `Accept` removes nothing more and confirms
  again.
- `SendKeys` on an alert whose result is not a `JsPromptResult` throws
  `ElementNotVisibleException`. It does not silently do nothing. Whether an alert
  takes keys depends on the runtime type of its result, not on the callback that
  queued it.
- The queue is a FIFO queue, not an unordered set.

## Model

| member | source | states |
|---|---|---|
| `SeleniumAndroid.ChromeClient.constructor` | webapp/src/org/openqa/selenium/android/ChromeClient.java:34-36 | a new client keeps the driver it is given and starts with an empty, duplicate-free queue of unhandled alerts |
| `SeleniumAndroid.AndroidAlert.constructor` | webapp/src/org/openqa/selenium/android/ChromeClient.java:89-97 | a new alert keeps its client, message, result and default value (None stands for the two-argument constructor's null default) and has no reply text yet |
| `SeleniumAndroid.ChromeClient.OnJsAlert` | webapp/src/org/openqa/selenium/android/ChromeClient.java:63-67 | appends exactly one fresh alert to the end of the queue; the earlier entries stay as they were; the alert carries the message, the result, a null default and no reply text; returns true; keeps the queue duplicate-free |
| `SeleniumAndroid.ChromeClient.OnJsConfirm` | webapp/src/org/openqa/selenium/android/ChromeClient.java:69-73 | the same contract as OnJsAlert, word for word: a confirm is built exactly like an alert |
| `SeleniumAndroid.ChromeClient.OnJsPrompt` | webapp/src/org/openqa/selenium/android/ChromeClient.java:75-80 | appends one fresh alert that keeps the prompt's default value; earlier entries untouched; returns true |
| `SeleniumAndroid.ChromeClient.OnProgressChanged` | webapp/src/org/openqa/selenium/android/ChromeClient.java:55-61 | notifies the driver exactly once when progress is 100, the last loaded URL is non-null and equals the view URL; otherwise changes nothing |
| `SeleniumAndroid.ChromeClient.Remove` | webapp/src/org/openqa/selenium/android/ChromeClient.java:100 | the queue loses the first occurrence of the alert; on a duplicate-free queue the alert is then absent |
| `SeleniumAndroid.AndroidAlert.Accept` | webapp/src/org/openqa/selenium/android/ChromeClient.java:99-112 | removes the alert from the queue; appends to the result's log `ConfirmWith(reply or default)` for a prompt-typed result, `Confirm` otherwise; no guard against a second call |
| `SeleniumAndroid.AndroidAlert.Dismiss` | webapp/src/org/openqa/selenium/android/ChromeClient.java:114-117 | removes the alert from the queue and appends `Cancel`, for every kind, never a confirm |
| `SeleniumAndroid.AndroidAlert.SendKeys` | webapp/src/org/openqa/selenium/android/ChromeClient.java:123-128 | on a non-prompt throws ElementNotVisible("Alert did not have text field") and keeps the reply text; on a prompt appends the keys to the reply text (null read as ""; a null argument appends "null") |
| `SeleniumAndroid.PageDoneLoading` | webapp/src/org/openqa/selenium/android/ChromeClient.java:57-58 | a progress report means "page done" only at exactly 100 with a view URL; a null last-loaded URL or a null view URL never matches; at 100 with a last-loaded URL it holds exactly when the view URL equals it |
| `SeleniumAndroid.AndroidAlert.IsPrompt` | webapp/src/org/openqa/selenium/android/ChromeClient.java:110-112 | an alert is a prompt exactly when its result is a `JsPromptResult` |
| `SeleniumAndroid.AndroidAlert.GetText` | webapp/src/org/openqa/selenium/android/ChromeClient.java:119-121 | returns the dialog's message as the WebView passed it, a null message included |
| `SeleniumAndroid.AcceptResolution` | webapp/src/org/openqa/selenium/android/ChromeClient.java:101-107 | accept never cancels; it passes a value exactly when the result is prompt-typed, and that value is the reply text if any was set and the default value otherwise |
| `SeleniumAndroid.AppendKeys` | webapp/src/org/openqa/selenium/android/ChromeClient.java:127 | the reply text after sendKeys always exists and starts with the earlier text (null read as ""); a null argument appends the four characters "null" |
| `SeleniumAndroid.RemoveFirst` | webapp/src/org/openqa/selenium/android/ChromeClient.java:100 | removing an absent alert leaves the queue unchanged; removing a present one shortens it by one and adds nothing |
| `SeleniumAndroid.RemoveFirstIsSplice` | webapp/src/org/openqa/selenium/android/ChromeClient.java:100 | removal cuts out exactly the first occurrence, so every other queued alert keeps its relative order |
| `SeleniumAndroid.RemoveFirstOfDistinct` | webapp/src/org/openqa/selenium/android/ChromeClient.java:100 | on a duplicate-free queue the removed alert is absent afterwards and the queue stays duplicate-free |
| `SeleniumAndroid.TypeAllConcatenates` | webapp/src/org/openqa/selenium/android/ChromeClient.java:127 | after sendKeys(k1)..sendKeys(kn) the reply text is the earlier text followed by k1..kn concatenated in order; with no call it is unchanged |
| `SeleniumAndroid.PromptAcceptAnswer` | webapp/src/org/openqa/selenium/android/ChromeClient.java:101-104 | accepting a prompt confirms with the concatenated keys if sendKeys was ever called, even with "" only, and with the default value otherwise |
| `SeleniumAndroid.PlainAcceptIgnoresText` | webapp/src/org/openqa/selenium/android/ChromeClient.java:105-107 | a result that is not prompt-typed is confirmed without a value, whatever text or default the alert holds |
| `SeleniumAndroid.PromptReplyScenario` | webapp/src/org/openqa/selenium/android/ChromeClient.java:99-104 | prompt "Enter name" with default "Guest": typing "Alice" then accepting confirms "Alice"; accepting without typing confirms "Guest"; sendKeys(null) then accepting confirms "null" |
| `SeleniumAndroid.AcceptTwiceScenario` | webapp/src/org/openqa/selenium/android/ChromeClient.java:99-108 | accepting one alert twice logs two confirms and leaves the queue empty |
| `SeleniumAndroid.DismissMiddleScenario` | webapp/src/org/openqa/selenium/android/ChromeClient.java:114-117 | dismissing the middle one of three queued alerts cancels its result and leaves the other two in order; a null message is read back as null |
| `BaiduCafe.StartCommand` | testrunner/src/com/baidu/cafe/CafeTestCase.java:129-131 | the relaunch command starts with the fixed `am start -a android.intent.action.MAIN -n ` prefix, followed by exactly the package name, a "/" right after it, and exactly the class name |
| `BaiduCafe.Loop` | testrunner/src/com/baidu/cafe/CafeTestCase.java:109-138 | the `while (true)` loop never reports a missing remote; it stops still waiting only if every scripted probe timed out; a Ready activity is one that some probe returned; every non-empty trace starts with a 5000 ms probe |
| `BaiduCafe.Launch` | testrunner/src/com/baidu/cafe/CafeTestCase.java:103-139 | the method reports a missing remote exactly when there is none, and then its only effect is the log line |
| `BaiduCafe.CafeTestCase.LaunchActivityIfNotAvailable` | testrunner/src/com/baidu/cafe/CafeTestCase.java:103-139 | the trace, outcome and stored activity are those of `Launch`: without a remote only a log line; otherwise probe, and after each timeout HOME, sleep, log, shell command, until the first returned probe stores its activity |
| `BaiduCafe.CafeTestCase.ForActivity` | testrunner/src/com/baidu/cafe/CafeTestCase.java:63-65 | as written, the one-argument constructor leaves the activity class null |
| `BaiduCafe.CafeTestCase.ForPackage` | testrunner/src/com/baidu/cafe/CafeTestCase.java:73-76 | the two-argument constructor records the activity class |
| `BaiduCafe.CafeTestCase.ForActivityRecorded` | testrunner/src/com/baidu/cafe/CafeTestCase.java:63-65 | the corrected one-argument constructor: it records the activity class as well |
| `BaiduCafe.RetriesUntilFirstSuccess` | testrunner/src/com/baidu/cafe/CafeTestCase.java:109-138 | if the first successful probe is at index n, the trace is exactly n cycles (probe, HOME, 1000 ms sleep, log, `am start` with 3000 ms timeout), then the successful probe and its log line, and the loop stops with that activity |
| `BaiduCafe.CyclesCounts` | testrunner/src/com/baidu/cafe/CafeTestCase.java:119-133 | n recovery cycles contain exactly n probes, n HOME presses and n shell commands |
| `BaiduCafe.FirstSuccessCounts` | testrunner/src/com/baidu/cafe/CafeTestCase.java:109-138 | first success at index n: exactly n+1 probes, n HOME presses and n restart commands |
| `BaiduCafe.NoRetryLimit` | testrunner/src/com/baidu/cafe/CafeTestCase.java:109-138 | for any number of consecutive timeouts the loop performs that many cycles and is still waiting: there is no cap |
| `BaiduCafe.RecordedClassNeverThrows` | testrunner/src/com/baidu/cafe/CafeTestCase.java:129-133 | with the activity class recorded, no script of probe outcomes makes the loop throw |
| `BaiduCafe.TimeoutWithoutClassThrows` | testrunner/src/com/baidu/cafe/CafeTestCase.java:119-131 | with a null activity class the first timeout throws a NullPointerException right after the HOME press and the sleep |
| `BaiduCafe.StartCommandRoundTrip` | testrunner/src/com/baidu/cafe/CafeTestCase.java:129-131 | the relaunch command is the fixed `am start` prefix followed by package "/" class, and reading the component back yields exactly that package and class |
| `BaiduCafe.TwoTimeoutsScenario` | testrunner/src/com/baidu/cafe/CafeTestCase.java:109-138 | a test case built with the two-argument constructor, two timeouts and then a success: ready with that activity after exactly two restart commands |
| `SeleniumIo.BaseDirError` | webapp/src/org/openqa/selenium/io/TemporaryFilesystem.java:76-81 | a base directory is accepted exactly when it exists and is writable; a missing one is reported as missing even if also unwritable; an existing unwritable one as unwritable |
| `SeleniumIo.TemporaryFilesystem.Private` | webapp/src/org/openqa/selenium/io/TemporaryFilesystem.java:71-72 | the private constructor keeps the base directory and the disk, tracks nothing and satisfies the invariant; its two checks are in `GetTmpFsBasedOn` |
| `SeleniumIo.TemporaryFilesystem.GetTmpFsBasedOn` | webapp/src/org/openqa/selenium/io/TemporaryFilesystem.java:66-83 | fails with exactly the base-directory error when there is one; otherwise returns a fresh instance over that directory tracking nothing |
| `SeleniumIo.TemporaryFilesystem.CreateTempDir` | webapp/src/org/openqa/selenium/io/TemporaryFilesystem.java:92-113 | the result is `TempDirOutcome` of the disk before the call; on success the new directory did not exist before, nor did anything beneath it, and now it exists and is tracked; a too-short prefix, an IOException or a failed mkdirs throws its own exception and nothing is tracked or created |
| `SeleniumIo.TempDirOutcome` | webapp/src/org/openqa/selenium/io/TemporaryFilesystem.java:92-113 | creation succeeds exactly when the prefix has at least 3 UTF-16 code units (`Utf16Length`, as `String.length` counts), the temporary file can be made, and mkdirs creates a path at which nothing exists yet; the result is that path; a short prefix is an IllegalArgumentException |
| `SeleniumIo.SupplementaryPrefixLongEnough` | webapp/src/org/openqa/selenium/io/TemporaryFilesystem.java:95 | a prefix of two characters outside the Basic Multilingual Plane has Java length 4, so creation with it succeeds |
| `SeleniumIo.AfterDeleteTempDir` | webapp/src/org/openqa/selenium/io/TemporaryFilesystem.java:121-130 | deleteTempDir only shrinks the tracked set and the disk; if the tracked set is unchanged nothing at all is deleted; otherwise exactly `file` was untracked, with reaping on |
| `SeleniumIo.Sweep` | webapp/src/org/openqa/selenium/io/TemporaryFilesystem.java:140-146 | the sweep only removes paths; with no deletable directory it removes nothing; after it nothing is left at or beneath any deletable swept directory |
| `SeleniumIo.TemporaryFilesystem.DeleteTempDir` | webapp/src/org/openqa/selenium/io/TemporaryFilesystem.java:121-130 | the new tracked set and disk are `AfterDeleteTempDir` of the old; only a failed delete of a tracked file throws; anything deleted lies under a directory this instance created |
| `SeleniumIo.TemporaryFilesystem.DeleteTemporaryFiles` | webapp/src/org/openqa/selenium/io/TemporaryFilesystem.java:135-147 | with reaping on the disk becomes `Sweep` of every tracked directory, failures ignored; the tracked set is unchanged; with reaping off nothing changes |
| `SeleniumIo.ShouldReap` | webapp/src/org/openqa/selenium/io/TemporaryFilesystem.java:154-157 | reaping is on exactly when the property, defaulting to "true" when unset, is one of the sixteen case spellings of "true" |
| `SeleniumIo.DeleteTempDirIdempotent` | webapp/src/org/openqa/selenium/io/TemporaryFilesystem.java:126-129 | a second deleteTempDir of the same file changes nothing |
| `SeleniumIo.DeleteTempDirOnlyTracked` | webapp/src/org/openqa/selenium/io/TemporaryFilesystem.java:121-130 | with reaping off or an untracked file nothing changes; otherwise the file is untracked and only paths under it are removed |
| `SeleniumIo.SweepOneMore` | webapp/src/org/openqa/selenium/io/TemporaryFilesystem.java:140-146 | sweeping one more directory removes exactly its remaining subtree, or nothing if it cannot be deleted, so the iteration order does not matter |
| `SeleniumIo.SweepRemovesExactlyTracked` | webapp/src/org/openqa/selenium/io/TemporaryFilesystem.java:140-146 | the sweep removes only paths under deletable tracked directories and removes all of them |
| `SeleniumIo.TempDirInsideBaseDir` | webapp/src/org/openqa/selenium/io/TemporaryFilesystem.java:95-99 | a created directory lies strictly inside the base directory |
| `SeleniumIo.DeleteOnlyOwnScenario` | webapp/src/org/openqa/selenium/io/TemporaryFilesystem.java:121-130 | a created directory is deleted; deleting it again changes nothing; an existing directory this instance did not create survives deleteTempDir |
| `SeleniumIo.ExistingDirRefusedScenario` | webapp/src/org/openqa/selenium/io/TemporaryFilesystem.java:95-102 | a name at which a directory already exists is refused by mkdirs: the call throws, nothing is tracked, and the directory's contents survive deleteTempDir |

## Findings

| source | as written | input that shows it | evidently intended | confidence | as-written member | corrected member |
|---|---|---|---|---|---|---|
| testrunner/src/com/baidu/cafe/CafeTestCase.java:63-65 | the one-argument constructor passes the activity class to the superclass only, so `mActivityClass` stays null, and the relaunch at line 129 dereferences it | a test case built with `CafeTestCase(Class)`, remote bound, first probe times out: HOME is pressed, the thread sleeps, then `mActivityClass.getName()` throws a NullPointerException and no relaunch happens | both constructors record the class (`mActivityClass = activityClass`), so every timeout leads to a relaunch | medium; not executed | `BaiduCafe.TimeoutWithoutClassThrows` | `BaiduCafe.RecordedClassNeverThrows` |

`BaiduCafe.CafeTestCase.ForActivity` is the constructor as written.
`BaiduCafe.CafeTestCase.ForActivityRecorded` is the corrected one.
`BaiduCafe.TwoTimeoutsScenario` uses the two-argument constructor as written, which
already records the class.

## Left out

- Threads: the thread-safe `ConcurrentLinkedQueue` and `CopyOnWriteArraySet`, the UI-thread versus controller-thread hand-offs, and the double-checked singleton in `getDefaultTmpFS`/`setTemporaryDirectory`. The model is single-threaded.
- The alert queue is a static field in the code. Here each `ChromeClient` object holds its own queue, so two clients do not share alerts.
- `onCreateWindow` and `onCloseWindow`: they only drive a view manager that is not part of this model.
- The `WebView view` and `String url` arguments of the dialog and progress callbacks. They are unused except for `view.getUrl()`, which is passed in as `viewUrl`.
- `AndroidWebDriver.notifyPageDoneLoading` is modelled as a notification counter. The driver's waiting logic is not part of this model.
- The probe's time limit. `ShellExecute.doInTimeout` is an oracle: each outcome is either a returned activity or a timeout. A probe that times out but later stores an activity from its abandoned worker is not modelled. Neither is an exception raised inside the probe.
- The probe script is finite, so `BaiduCafe.Loop` stops with `StillWaiting` when the script runs out. The code would keep probing. `NoRetryLimit` states that, once the activity class is recorded, the loop never stops on its own before a success.
- Durations, key codes and timeouts are recorded in the trace as data. No time passes. The ignored `InterruptedException` of `Thread.sleep` has no effect in the model, and neither does the shell command's result, as in the code.
- `Class.getPackage()` returning null, for a class in the default package. The model takes the package name as given.
- `setUp`, `tearDown`, `getStatusBarHeight`, the `Armser`/`LocalLib` binding and the exception handler: test-harness glue. The static `remote` is the `remoteBound` parameter.
- `AndroidSessionStorage`: every method forwards to JavaScript atoms whose meaning is not part of this model.
- File I/O. `File.createTempFile` is an oracle (`tempName`): None means it threw an IOException. Otherwise the name is base dir, "/", prefix, the unique part and the suffix (".tmp" when null). The temporary file is deleted at once, so the model records no net disk effect for it. The JDK rule that the prefix needs a `length()` of at least 3 UTF-16 code units is modelled as an IllegalArgumentException. `File.mkdirs` answers false for a path at or beneath which something exists, as `File.mkdirs` does for an existing directory; otherwise it answers through the `mkdirsOk` oracle. `File.createTempFile` never picks an existing name; an oracle name that exists therefore surfaces as the mkdirs failure.
- `FileHandler` is not part of this model. `FileHandler.createDir` is taken to succeed with no further effect. `FileHandler.delete` is taken to remove the path and everything beneath it, or to throw (paths in `Disk.undeletable`) and remove nothing.
- The shutdown hook registration, `deleteBaseDir`, and `getAbsolutePath` (paths are taken as already absolute).
- `System.getProperty("webdriver.reap_profile", "true")` is the `reapProfile` parameter, None when unset.
- Case folding in `ShouldReap` is ASCII only. That is exact for comparison with "true": no other Unicode character folds to one of its letters.
- A `Path` stands for a normalised absolute pathname, compared as a string. `File.equals` compares normalised pathnames, so in the code `deleteTempDir(new File("/tmp/x/"))` finds a tracked "/tmp/x"; the model expects callers to pass the normalised form.
- Java's string concatenation of a null reference is modelled where the code does it: `sendKeys(null)` on a prompt appends "null". A null dialog message is kept as null (`Option`).
- Null `prefix`, `file` and `directory` arguments to the temporary file system are not modelled: in the code a null prefix makes `File.createTempFile` throw a NullPointerException, `deleteTempDir(null)` does nothing, and `getTmpFsBasedOn(null)` throws at `baseDir.exists()`. Only the suffix is nullable here.
- A Dafny `string` holds Unicode scalar values, so a Java string with an unpaired surrogate has no counterpart here. Lengths of the strings the model does hold are counted in UTF-16 code units where the code compares them (`Utf16Length`).
- The file-system root as base directory is not modelled: the model joins base directory and name with "/", which for "/" gives "//name" where `File` gives "/name", and `Under` does not treat "/" as containing every path.
