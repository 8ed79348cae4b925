/**
 * The WebView chrome client of the Android WebDriver: it intercepts JavaScript
 * alert, confirm and prompt dialogs, queues each as an AndroidAlert, and lets the
 * controller read, answer, accept or dismiss them later. It also decides when a
 * progress report means that the current page is done loading.
 */
module SeleniumAndroid {
  import opened Wrappers

  /** One resolution call made on a WebView JsResult. */
  datatype Resolution =
    | Confirm                            // JsResult.confirm()
    | ConfirmWith(value: Option<string>) // JsPromptResult.confirm(String), the value may be null
    | Cancel                             // JsResult.cancel()

  /** The exception sendKeys throws on a dialog without a text field. */
  datatype AlertError = ElementNotVisible(message: string)

  const NO_TEXT_FIELD := "Alert did not have text field"

  /**
   * The WebView's handle for answering one dialog. `isPromptResult` is its runtime
   * type (a JsPromptResult or a plain JsResult); `calls` records every resolution
   * call made on it, in order, so that repeated or missing calls are visible.
   */
  class JsResult {
    const isPromptResult: bool
    var calls: seq<Resolution>

    constructor (isPromptResult: bool)
      ensures this.isPromptResult == isPromptResult && calls == []
    {
      this.isPromptResult := isPromptResult;
      calls := [];
    }

    method Confirm()
      modifies this
      ensures calls == old(calls) + [Resolution.Confirm]
    {
      calls := calls + [Resolution.Confirm];
    }

    /** Only a JsPromptResult has confirm(String). */
    method ConfirmWith(value: Option<string>)
      requires isPromptResult
      modifies this
      ensures calls == old(calls) + [Resolution.ConfirmWith(value)]
    {
      calls := calls + [Resolution.ConfirmWith(value)];
    }

    method Cancel()
      modifies this
      ensures calls == old(calls) + [Resolution.Cancel]
    {
      calls := calls + [Resolution.Cancel];
    }
  }

  /** The part of the driver the chrome client talks to. */
  class AndroidWebDriver {
    var lastUrlLoaded: Option<string>
    var pageDoneNotifications: nat

    constructor (lastUrlLoaded: Option<string>)
      ensures this.lastUrlLoaded == lastUrlLoaded && pageDoneNotifications == 0
    {
      this.lastUrlLoaded := lastUrlLoaded;
      pageDoneNotifications := 0;
    }

    method NotifyPageDoneLoading()
      modifies this
      ensures pageDoneNotifications == old(pageDoneNotifications) + 1
      ensures lastUrlLoaded == old(lastUrlLoaded)
    {
      pageDoneNotifications := pageDoneNotifications + 1;
    }
  }

  /**
   * A progress report means "page done" only at exactly 100 percent, when the driver
   * has a last loaded URL and the view shows that same URL (String.equals, so a
   * null view URL never matches).
   */
  predicate PageDoneLoading(newProgress: int, lastUrlLoaded: Option<string>, viewUrl: Option<string>)
    ensures PageDoneLoading(newProgress, lastUrlLoaded, viewUrl) ==> newProgress == 100 && viewUrl.Some?
    ensures lastUrlLoaded == None || viewUrl == None ==> !PageDoneLoading(newProgress, lastUrlLoaded, viewUrl)
    ensures newProgress == 100 && lastUrlLoaded.Some? ==> (PageDoneLoading(newProgress, lastUrlLoaded, viewUrl) <==> viewUrl == lastUrlLoaded)
  {
    newProgress == 100 && lastUrlLoaded.Some? && viewUrl == lastUrlLoaded
  }

  // ---------------------------------------------------------------------------
  // The pending-alert queue
  // ---------------------------------------------------------------------------

  /** No element occurs twice. */
  predicate Distinct<T(==)>(q: seq<T>)
  {
    forall i, j :: 0 <= i < j < |q| ==> q[i] != q[j]
  }

  /** The position of the first occurrence of `x` in `q`. */
  function IndexOf<T(==)>(q: seq<T>, x: T): (i: nat)
    requires x in q
    ensures i < |q| && q[i] == x && x !in q[..i]
  {
    if q[0] == x then 0 else 1 + IndexOf(q[1..], x)
  }

  /**
   * ConcurrentLinkedQueue.remove(x): walk the queue from its head and unlink the
   * first element equal to `x` (an AndroidAlert is equal only to itself); the queue
   * is unchanged when `x` is absent.
   */
  function RemoveFirst<T(==)>(q: seq<T>, x: T): (r: seq<T>)
    ensures x !in q ==> r == q
    ensures x in q ==> |r| == |q| - 1
    ensures forall y :: y in r ==> y in q
  {
    if q == [] then []
    else if q[0] == x then q[1..]
    else [q[0]] + RemoveFirst(q[1..], x)
  }

  /** Removing an element cuts exactly its first occurrence out; the rest keep their order. */
  lemma {:induction false} RemoveFirstIsSplice<T>(q: seq<T>, x: T)
    requires x in q
    ensures RemoveFirst(q, x) == q[..IndexOf(q, x)] + q[IndexOf(q, x) + 1..]
  {
    if q[0] != x {
      RemoveFirstIsSplice(q[1..], x);
      var i := IndexOf(q[1..], x);
      assert q[1..][..i] == q[1..i + 1];
      assert q[1..][i + 1..] == q[i + 2..];
      assert [q[0]] + q[1..i + 1] == q[..i + 1];
    }
  }

  /** In a queue without duplicates, removal really takes the element out and keeps the queue duplicate-free. */
  lemma RemoveFirstOfDistinct<T>(q: seq<T>, x: T)
    requires Distinct(q)
    ensures x !in RemoveFirst(q, x)
    ensures Distinct(RemoveFirst(q, x))
  {
    if x in q {
      RemoveFirstIsSplice(q, x);
      var i := IndexOf(q, x);
      var r := q[..i] + q[i + 1..];
      assert |r| == |q| - 1;
      forall k | 0 <= k < |r|
        ensures r[k] == q[if k < i then k else k + 1]
      {
      }
      forall k | 0 <= k < |r|
        ensures r[k] != x
      {
        assert r[k] == q[if k < i then k else k + 1];
      }
      forall k, l | 0 <= k < l < |r|
        ensures r[k] != r[l]
      {
        assert r[k] == q[if k < i then k else k + 1];
        assert r[l] == q[if l < i then l else l + 1];
      }
    }
  }

  // ---------------------------------------------------------------------------
  // Reply text and the answer given on accept
  // ---------------------------------------------------------------------------

  /** What Java string concatenation appends for `keys`: its characters, or "null" for a null reference. */
  function KeysText(keys: Option<string>): string
  {
    keys.GetOr("null")
  }

  /**
   * The reply text after sendKeys(keys) on a prompt: the old text (null read as "")
   * followed by `keys` ("null" for a null argument).
   */
  function AppendKeys(textToSend: Option<string>, keys: Option<string>): (t: Option<string>)
    ensures t.Some? && textToSend.GetOr("") <= t.value
    ensures keys == None ==> t == Some(textToSend.GetOr("") + "null")
  {
    Some(textToSend.GetOr("") + KeysText(keys))
  }

  /** The reply text after sendKeys(keys[0]), ..., sendKeys(keys[|keys| - 1]) on a prompt. */
  function TypeAll(textToSend: Option<string>, keys: seq<Option<string>>): Option<string>
    decreases |keys|
  {
    if keys == [] then textToSend else TypeAll(AppendKeys(textToSend, keys[0]), keys[1..])
  }

  /** The in-order concatenation of the texts of a list of sendKeys arguments. */
  function Concat(keys: seq<Option<string>>): string
  {
    if keys == [] then "" else KeysText(keys[0]) + Concat(keys[1..])
  }

  /** A series of sendKeys calls leaves the concatenation of their arguments, in order, after any earlier text. */
  lemma {:induction false} TypeAllConcatenates(textToSend: Option<string>, keys: seq<Option<string>>)
    ensures TypeAll(textToSend, keys) == if keys == [] then textToSend else Some(textToSend.GetOr("") + Concat(keys))
    decreases |keys|
  {
    if keys != [] {
      var next := AppendKeys(textToSend, keys[0]);
      TypeAllConcatenates(next, keys[1..]);
      assert next.GetOr("") == textToSend.GetOr("") + KeysText(keys[0]);
      if keys[1..] == [] {
        assert Concat(keys[1..]) == "";
        assert Concat(keys) == KeysText(keys[0]);
      } else {
        assert next.GetOr("") + Concat(keys[1..]) == textToSend.GetOr("") + Concat(keys);
      }
    }
  }

  /**
   * The resolution accept() makes: a prompt-typed result is confirmed with the
   * reply text when sendKeys was ever called and with the default value otherwise;
   * any other result gets the value-less confirm().
   */
  function AcceptResolution(isPrompt: bool, textToSend: Option<string>, defaultValue: Option<string>): (r: Resolution)
    ensures r != Cancel
    ensures r.ConfirmWith? <==> isPrompt
    ensures isPrompt ==> r.value == (if textToSend.Some? then textToSend else defaultValue)
  {
    if isPrompt then ConfirmWith(if textToSend == None then defaultValue else textToSend) else Confirm
  }

  /**
   * Accepting a fresh prompt after sendKeys(keys[0]) ... sendKeys(keys[n - 1]) confirms
   * with their concatenation, even when that is empty; with no sendKeys it confirms
   * with the default value.
   */
  lemma PromptAcceptAnswer(defaultValue: Option<string>, keys: seq<Option<string>>)
    ensures AcceptResolution(true, TypeAll(None, keys), defaultValue)
         == ConfirmWith(if keys == [] then defaultValue else Some(Concat(keys)))
  {
    TypeAllConcatenates(None, keys);
    assert "" + Concat(keys) == Concat(keys);
  }

  /** Accepting anything but a prompt-typed result never passes a value, whatever was typed or defaulted. */
  lemma PlainAcceptIgnoresText(textToSend: Option<string>, defaultValue: Option<string>)
    ensures AcceptResolution(false, textToSend, defaultValue) == Confirm
  {
  }

  // ---------------------------------------------------------------------------
  // The alert object and the chrome client
  // ---------------------------------------------------------------------------

  /** One intercepted dialog, waiting in its chrome client's queue until accepted or dismissed. */
  class AndroidAlert {
    const client: ChromeClient
    const message: Option<string>
    const result: JsResult
    const defaultValue: Option<string>
    var textToSend: Option<string>

    constructor (client: ChromeClient, message: Option<string>, result: JsResult, defaultValue: Option<string>)
      ensures this.client == client && this.message == message && this.result == result
      ensures this.defaultValue == defaultValue && textToSend == None
    {
      this.client := client;
      this.message := message;
      this.result := result;
      this.defaultValue := defaultValue;
      textToSend := None;
    }

    /** Decided by the runtime type of the result, not by which callback created the alert. */
    predicate IsPrompt()
      ensures IsPrompt() <==> result.isPromptResult
    {
      result.isPromptResult
    }

    /** The dialog's message as the WebView passed it, null included; sendKeys never changes it. */
    function GetText(): (m: Option<string>)
      ensures m == message
    {
      message
    }

    /**
     * Takes the alert off the queue and confirms the result. There is no resolved
     * flag: a second call removes nothing more and confirms again.
     */
    method Accept()
      modifies client, result
      ensures client.unhandledAlerts == RemoveFirst(old(client.unhandledAlerts), this)
      ensures result.calls == old(result.calls) + [AcceptResolution(IsPrompt(), textToSend, defaultValue)]
      ensures old(client.Valid()) ==> client.Valid() && this !in client.unhandledAlerts
    {
      client.Remove(this);
      if IsPrompt() {
        var reply := if textToSend == None then defaultValue else textToSend;
        result.ConfirmWith(reply);
      } else {
        result.Confirm();
      }
    }

    /** Takes the alert off the queue and cancels the result, whatever its kind. */
    method Dismiss()
      modifies client, result
      ensures client.unhandledAlerts == RemoveFirst(old(client.unhandledAlerts), this)
      ensures result.calls == old(result.calls) + [Cancel]
      ensures old(client.Valid()) ==> client.Valid() && this !in client.unhandledAlerts
    {
      client.Remove(this);
      result.Cancel();
    }

    /** Appends to the reply text of a prompt; any other alert throws and keeps its text. */
    method SendKeys(keys: Option<string>) returns (thrown: Option<AlertError>)
      modifies this
      ensures !IsPrompt() ==> thrown == Some(ElementNotVisible(NO_TEXT_FIELD)) && textToSend == old(textToSend)
      ensures IsPrompt() ==> thrown == None && textToSend == AppendKeys(old(textToSend), keys)
    {
      if !IsPrompt() {
        return Some(ElementNotVisible(NO_TEXT_FIELD));
      }
      textToSend := Some((if textToSend == None then "" else textToSend.value) + (if keys == None then "null" else keys.value));
      thrown := None;
    }
  }

  /** The WebView chrome client; its queue of unhandled alerts is a field here. */
  class ChromeClient {
    const driver: AndroidWebDriver
    var unhandledAlerts: seq<AndroidAlert>

    /** Every queued alert is queued once and belongs to this client. */
    ghost predicate Valid()
      reads this
    {
      Distinct(unhandledAlerts) && forall a :: a in unhandledAlerts ==> a.client == this
    }

    constructor (driver: AndroidWebDriver)
      ensures this.driver == driver && unhandledAlerts == [] && Valid()
    {
      this.driver := driver;
      unhandledAlerts := [];
    }

    /** The most recently queued alert. */
    function Newest(): AndroidAlert
      reads this
      requires unhandledAlerts != []
    {
      unhandledAlerts[|unhandledAlerts| - 1]
    }

    /** The fields a just-built alert has. */
    ghost predicate IsNewAlert(a: AndroidAlert, message: Option<string>, result: JsResult, defaultValue: Option<string>)
      reads a
    {
      a.client == this && a.GetText() == message && a.result == result
      && a.defaultValue == defaultValue && a.textToSend == None
    }

    method Remove(a: AndroidAlert)
      modifies this
      ensures unhandledAlerts == RemoveFirst(old(unhandledAlerts), a)
      ensures old(Valid()) ==> Valid() && a !in unhandledAlerts
    {
      if Valid() {
        RemoveFirstOfDistinct(unhandledAlerts, a);
      }
      unhandledAlerts := RemoveFirst(unhandledAlerts, a);
    }

    /** Called by the view at each progress report; notifies the driver once the page is done. */
    method OnProgressChanged(viewUrl: Option<string>, newProgress: int)
      modifies driver
      ensures driver.pageDoneNotifications
           == old(driver.pageDoneNotifications) + if PageDoneLoading(newProgress, old(driver.lastUrlLoaded), viewUrl) then 1 else 0
      ensures driver.lastUrlLoaded == old(driver.lastUrlLoaded)
    {
      if newProgress == 100 && driver.lastUrlLoaded != None && driver.lastUrlLoaded == viewUrl {
        driver.NotifyPageDoneLoading();
      }
    }

    /** Queues a new alert for the dialog (default value null) and tells the view it is handled. */
    method OnJsAlert(message: Option<string>, result: JsResult) returns (handled: bool)
      modifies this
      ensures handled
      ensures |unhandledAlerts| == |old(unhandledAlerts)| + 1 && old(unhandledAlerts) <= unhandledAlerts
      ensures fresh(Newest()) && IsNewAlert(Newest(), message, result, None)
      ensures old(Valid()) ==> Valid()
    {
      var alert := new AndroidAlert(this, message, result, None);
      unhandledAlerts := unhandledAlerts + [alert];
      handled := true;
    }

    /** Built exactly as OnJsAlert builds its alert. */
    method OnJsConfirm(message: Option<string>, result: JsResult) returns (handled: bool)
      modifies this
      ensures handled
      ensures |unhandledAlerts| == |old(unhandledAlerts)| + 1 && old(unhandledAlerts) <= unhandledAlerts
      ensures fresh(Newest()) && IsNewAlert(Newest(), message, result, None)
      ensures old(Valid()) ==> Valid()
    {
      var alert := new AndroidAlert(this, message, result, None);
      unhandledAlerts := unhandledAlerts + [alert];
      handled := true;
    }

    /** Queues a new alert that keeps the prompt's default value. */
    method OnJsPrompt(message: Option<string>, defaultValue: Option<string>, result: JsResult) returns (handled: bool)
      requires result.isPromptResult
      modifies this
      ensures handled
      ensures |unhandledAlerts| == |old(unhandledAlerts)| + 1 && old(unhandledAlerts) <= unhandledAlerts
      ensures fresh(Newest()) && IsNewAlert(Newest(), message, result, defaultValue)
      ensures old(Valid()) ==> Valid()
    {
      var alert := new AndroidAlert(this, message, result, defaultValue);
      unhandledAlerts := unhandledAlerts + [alert];
      handled := true;
    }
  }

  // ---------------------------------------------------------------------------
  // Scenarios: what a caller of the classes above can conclude
  // ---------------------------------------------------------------------------

  /** A prompt "Enter name" with default "Guest": typing "Alice" answers "Alice"; typing nothing answers "Guest". */
  method PromptReplyScenario() returns (typed: seq<Resolution>, untyped: seq<Resolution>, nulled: seq<Resolution>)
    ensures typed == [ConfirmWith(Some("Alice"))]
    ensures untyped == [ConfirmWith(Some("Guest"))]
    ensures nulled == [ConfirmWith(Some("null"))]
  {
    var driver := new AndroidWebDriver(None);
    var client := new ChromeClient(driver);
    var first := new JsResult(true);
    var _ := client.OnJsPrompt(Some("Enter name"), Some("Guest"), first);
    var alert := client.Newest();
    var _ := alert.SendKeys(Some("Alice"));
    assert "" + "Alice" == "Alice";
    alert.Accept();
    typed := first.calls;

    var second := new JsResult(true);
    var _ := client.OnJsPrompt(Some("Enter name"), Some("Guest"), second);
    alert := client.Newest();
    alert.Accept();
    untyped := second.calls;

    var third := new JsResult(true);
    var _ := client.OnJsPrompt(Some("Enter name"), Some("Guest"), third);
    alert := client.Newest();
    var _ := alert.SendKeys(None);
    assert "" + "null" == "null";
    alert.Accept();
    nulled := third.calls;
  }

  /** Accepting an alert twice confirms twice; the second call finds nothing left to remove. */
  method AcceptTwiceScenario() returns (calls: seq<Resolution>, pending: nat)
    ensures calls == [Confirm, Confirm] && pending == 0
  {
    var driver := new AndroidWebDriver(None);
    var client := new ChromeClient(driver);
    var result := new JsResult(false);
    var _ := client.OnJsAlert(Some("hello"), result);
    var alert := client.Newest();
    alert.Accept();
    alert.Accept();
    calls := result.calls;
    pending := |client.unhandledAlerts|;
  }

  /**
   * Dismissing the middle one of three queued alerts leaves the other two in their
   * order; the last one's null message is read back as null.
   */
  method DismissMiddleScenario() returns (texts: seq<Option<string>>, calls: seq<Resolution>)
    ensures texts == [Some("one"), None] && calls == [Cancel]
  {
    var driver := new AndroidWebDriver(None);
    var client := new ChromeClient(driver);
    var r1 := new JsResult(false);
    var r2 := new JsResult(false);
    var r3 := new JsResult(true);
    var _ := client.OnJsAlert(Some("one"), r1);
    var _ := client.OnJsConfirm(Some("two"), r2);
    var middle := client.Newest();
    var _ := client.OnJsPrompt(None, None, r3);
    middle.Dismiss();
    texts := [client.unhandledAlerts[0].GetText(), client.unhandledAlerts[1].GetText()];
    calls := r2.calls;
  }
}
