/**
 * The WhatsApp bridge client (`WhatsAppService` in integrations/whatsapp/whatsapp_service.py):
 * the phone-number formatter and the state kept between bridge events. Starting, stopping and
 * talking to the Node.js subprocess are not modelled; the bridge is represented only by
 * whether it exists and whether it has a stdin pipe.
 */
module WhatsAppIntegration {
  import opened Wrappers
  import opened Ascii

  /** `filter(str.isdigit, number)`: the digits of `s`, in order. */
  function Digits(s: string): (r: string)
    ensures |r| <= |s|
    ensures forall i | 0 <= i < |r| :: IsDigit(r[i])
    decreases |s|
  {
    if s == [] then []
    else if IsDigit(s[0]) then [s[0]] + Digits(s[1..])
    else Digits(s[1..])
  }

  predicate AllDigits(s: string) {
    forall i | 0 <= i < |s| :: IsDigit(s[i])
  }

  lemma {:induction false} DigitsAppend(a: string, b: string)
    ensures Digits(a + b) == Digits(a) + Digits(b)
    decreases |a|
  {
    if a == [] {
      assert a + b == b;
    } else {
      assert (a + b)[1..] == a[1..] + b;
      DigitsAppend(a[1..], b);
    }
  }

  /** A string made only of digits is its own digit filter. */
  lemma {:induction false} DigitsOfDigits(s: string)
    requires AllDigits(s)
    ensures Digits(s) == s
    decreases |s|
  {
    if s != [] {
      DigitsOfDigits(s[1..]);
    }
  }

  const ChatSuffix := "@c.us"
  const CountryCode := "55"

  /** The digit part of a formatted number: the digits, with "55" put in front unless present. */
  function WithCountryCode(digits: string): string {
    if StartsWith(digits, CountryCode) then digits else CountryCode + digits
  }

  /** `format_phone_number`. */
  function FormatPhoneNumber(number: string): string {
    WithCountryCode(Digits(number)) + ChatSuffix
  }

  /**
   * A formatted number is "55", then digits only, then "@c.us". The digit part is the input's
   * digits as they are when they already start with "55", and "55" followed by them otherwise.
   */
  lemma FormatPhoneNumberShape(number: string)
    ensures var r := FormatPhoneNumber(number); var d := r[..|r| - |ChatSuffix|];
      && |r| >= |CountryCode| + |ChatSuffix|
      && r[|r| - |ChatSuffix|..] == ChatSuffix
      && StartsWith(d, CountryCode)
      && AllDigits(d)
      && d == (if StartsWith(Digits(number), CountryCode) then Digits(number)
               else CountryCode + Digits(number))
  {
    var digits := Digits(number);
    var d := WithCountryCode(digits);
    var r := d + ChatSuffix;
    assert r[..|r| - |ChatSuffix|] == d;
    assert r[|r| - |ChatSuffix|..] == ChatSuffix;
    if !StartsWith(digits, CountryCode) {
      assert (CountryCode + digits)[..2] == CountryCode;
      assert forall i | 0 <= i < |d| :: IsDigit(d[i]) by {
        forall i | 0 <= i < |d| ensures IsDigit(d[i]) {
          if i >= 2 {
            assert d[i] == digits[i - 2];
          }
        }
      }
    }
  }

  /** The suffix contributes no digits. */
  lemma SuffixHasNoDigits(suffix: string)
    requires suffix == ChatSuffix
    ensures Digits(suffix) == []
  {
    assert Digits(suffix[4..]) == [];
    assert Digits(suffix[3..]) == [];
    assert Digits(suffix[2..]) == [];
    assert Digits(suffix[1..]) == [];
  }

  /** Formatting an already formatted number changes nothing. */
  lemma FormatPhoneNumberIdempotent(number: string)
    ensures FormatPhoneNumber(FormatPhoneNumber(number)) == FormatPhoneNumber(number)
  {
    var r := FormatPhoneNumber(number);
    var d := WithCountryCode(Digits(number));
    FormatPhoneNumberShape(number);
    assert r[..|r| - |ChatSuffix|] == d;
    DigitsAppend(d, ChatSuffix);
    DigitsOfDigits(d);
    SuffixHasNoDigits(ChatSuffix);
    assert Digits(r) == d;
  }

  /** The subprocess handle: present once the bridge is started; it may lack a stdin pipe. */
  datatype Bridge = Bridge(hasStdin: bool)

  /** A parsed bridge event: the JSON object's optional "type" and its "data" object. */
  datatype Event = Event(eventType: Option<string>, data: map<string, string>)

  /**
   * One line of the bridge's standard output, as `_read_output` treats it: blank after
   * stripping, text that is not JSON (only logged), a JSON event, or a line whose decoding or
   * handling raises (for instance JSON that is not an object), which ends the reading.
   */
  datatype OutputLine = Blank | PlainText(text: string) | EventLine(event: Event) | Fault

  /** The JSON command `send_message` writes to the bridge. */
  datatype SendCommand = SendCommand(commandType: string, to: string, message: string)

  class WhatsAppService {
    const sessionName: string
    const hasMessageHandler: bool
    var isReady: bool
    var qrCode: Option<string>
    var clientInfo: Option<string>
    var process: Option<Bridge>

    /** A new service is not ready and has no QR code, client information or bridge. */
    constructor (sessionName: string, hasMessageHandler: bool)
      ensures this.sessionName == sessionName && this.hasMessageHandler == hasMessageHandler
      ensures !isReady && qrCode == None && clientInfo == None && process == None
    {
      this.sessionName := sessionName;
      this.hasMessageHandler := hasMessageHandler;
      isReady := false;
      qrCode := None;
      clientInfo := None;
      process := None;
    }

    /** The assignment of the started subprocess in `_start_bridge`. */
    method AttachBridge(hasStdin: bool)
      modifies this
      ensures process == Some(Bridge(hasStdin))
      ensures isReady == old(isReady) && qrCode == old(qrCode) && clientInfo == old(clientInfo)
    {
      process := Some(Bridge(hasStdin));
    }

    /**
     * `_handle_event`: "qr" stores the payload's code (or none), "ready" and "disconnected"
     * set and clear readiness, and "message" passes its data to the handler, which is
     * returned here as what was dispatched. Every other type only logs.
     */
    method HandleEvent(event: Event) returns (dispatched: Option<map<string, string>>)
      modifies this
      ensures qrCode == QrStep(old(qrCode), event)
      ensures isReady == ReadyStep(old(isReady), event)
      ensures dispatched == (if event.eventType == Some("message") && hasMessageHandler
                             then Some(event.data) else None)
      ensures clientInfo == old(clientInfo) && process == old(process)
    {
      dispatched := None;
      if event.eventType == Some("qr") {
        qrCode := if "qr" in event.data then Some(event.data["qr"]) else None;
      } else if event.eventType == Some("ready") {
        isReady := true;
      } else if event.eventType == Some("message") {
        if hasMessageHandler {
          dispatched := Some(event.data);
        }
      } else if event.eventType == Some("disconnected") {
        isReady := false;
      }
    }

    /**
     * The checks of `send_message`, made before anything is written: the command to be sent,
     * or the error raised.
     */
    method SendMessage(to: string, message: string) returns (r: Result<SendCommand, string>)
      ensures !isReady ==> r == Failure("WhatsApp is not ready")
      ensures isReady && (process == None || !process.value.hasStdin) ==>
        r == Failure("WhatsApp bridge is not running")
      ensures r.Success? <==> isReady && process.Some? && process.value.hasStdin
      ensures r.Success? ==> r.value == SendCommand("send_message", to, message)
    {
      if !isReady {
        return Failure("WhatsApp is not ready");
      }
      if process == None || !process.value.hasStdin {
        return Failure("WhatsApp bridge is not running");
      }
      r := Success(SendCommand("send_message", to, message));
    }
    /**
     * `_read_output`: with a bridge running, the lines are read in order and every event goes
     * to `_handle_event`; the first line that raises stops the reading. `delivered` lists the
     * data passed to the message handler, in order.
     */
    method ReadOutput(lines: seq<OutputLine>) returns (delivered: seq<map<string, string>>)
      modifies this
      ensures old(process) == None ==>
        isReady == old(isReady) && qrCode == old(qrCode) && delivered == []
      ensures old(process) != None ==>
        && isReady == ReadyAfter(old(isReady), Handled(lines))
        && qrCode == QrAfter(old(qrCode), Handled(lines))
        && delivered == Dispatched(hasMessageHandler, Handled(lines))
      ensures process == old(process) && clientInfo == old(clientInfo)
    {
      delivered := [];
      if process == None {
        return;
      }
      var i := 0;
      while i < |lines|
        invariant 0 <= i <= |lines|
        invariant ReadyAfter(isReady, Handled(lines[i..])) == ReadyAfter(old(isReady), Handled(lines))
        invariant QrAfter(qrCode, Handled(lines[i..])) == QrAfter(old(qrCode), Handled(lines))
        invariant delivered + Dispatched(hasMessageHandler, Handled(lines[i..]))
               == Dispatched(hasMessageHandler, Handled(lines))
        invariant process == old(process) && clientInfo == old(clientInfo)
      {
        assert lines[i..] == [lines[i]] + lines[i + 1..];
        HandledCons(lines[i], lines[i + 1..]);
        var rest := Handled(lines[i + 1..]);
        if lines[i] == Fault {
          assert Handled(lines[i..]) == [];
          assert delivered + [] == delivered;
          break;
        }
        if lines[i].EventLine? {
          var e := lines[i].event;
          EventStep(isReady, qrCode, hasMessageHandler, delivered, e, rest);
          var d := HandleEvent(e);
          assert (if d.Some? then [d.value] else []) == DispatchStep(hasMessageHandler, e);
          delivered := delivered + (if d.Some? then [d.value] else []);
        }
        i := i + 1;
      }
      if i == |lines| {
        assert lines[i..] == [];
        assert delivered + [] == delivered;
      }
    }
  }

  /** Readiness after one event: "ready" sets it, "disconnected" clears it, others keep it. */
  function ReadyStep(ready: bool, e: Event): bool {
    if e.eventType == Some("ready") then true
    else if e.eventType == Some("disconnected") then false
    else ready
  }

  /** The QR code after one event: a "qr" event stores its payload's code, others keep it. */
  function QrStep(qr: Option<string>, e: Event): Option<string> {
    if e.eventType == Some("qr") then QrOf(e) else qr
  }

  /** What one event hands to the message handler. */
  function DispatchStep(hasHandler: bool, e: Event): seq<map<string, string>> {
    if e.eventType == Some("message") && hasHandler then [e.data] else []
  }

  /** Readiness after a run of events: the last "ready" or "disconnected" decides. */
  function ReadyAfter(ready: bool, events: seq<Event>): bool
    decreases |events|
  {
    if events == [] then ready else ReadyAfter(ReadyStep(ready, events[0]), events[1..])
  }

  /** Handling one event and then the rest is handling the whole run. */
  lemma EventStep(ready: bool, qr: Option<string>, hasHandler: bool,
                  delivered: seq<map<string, string>>, e: Event, rest: seq<Event>)
    ensures ReadyAfter(ReadyStep(ready, e), rest) == ReadyAfter(ready, [e] + rest)
    ensures QrAfter(QrStep(qr, e), rest) == QrAfter(qr, [e] + rest)
    ensures (delivered + DispatchStep(hasHandler, e)) + Dispatched(hasHandler, rest)
         == delivered + Dispatched(hasHandler, [e] + rest)
  {
    assert ([e] + rest)[1..] == rest;
    var x := DispatchStep(hasHandler, e);
    assert (delivered + x) + Dispatched(hasHandler, rest) == delivered + (x + Dispatched(hasHandler, rest));
  }

  /** Once "ready" is seen, readiness holds until a "disconnected" event arrives. */
  lemma {:induction false} ReadyUntilDisconnected(ready: bool, events: seq<Event>, k: nat)
    requires k < |events| && events[k].eventType == Some("ready")
    requires forall j | k < j < |events| :: events[j].eventType != Some("disconnected")
    ensures ReadyAfter(ready, events)
    decreases |events|
  {
    var next := ReadyStep(ready, events[0]);
    if k == 0 {
      NoDisconnectKeepsReady(events[1..]);
    } else {
      ReadyUntilDisconnected(next, events[1..], k - 1);
    }
  }

  lemma {:induction false} NoDisconnectKeepsReady(events: seq<Event>)
    requires forall j | 0 <= j < |events| :: events[j].eventType != Some("disconnected")
    ensures ReadyAfter(true, events)
    decreases |events|
  {
    if events != [] {
      NoDisconnectKeepsReady(events[1..]);
    }
  }

  /** The QR code a "qr" event stores: the payload's "qr" entry, or none. */
  function QrOf(e: Event): Option<string> {
    if "qr" in e.data then Some(e.data["qr"]) else None
  }

  /** The QR code after a run of events: the last "qr" event decides. */
  function QrAfter(qr: Option<string>, events: seq<Event>): Option<string>
    decreases |events|
  {
    if events == [] then qr else QrAfter(QrStep(qr, events[0]), events[1..])
  }

  /** The stored QR code is that of the last "qr" event, whatever came before it. */
  lemma {:induction false} LastQrDecides(qr: Option<string>, events: seq<Event>, k: nat)
    requires k < |events| && events[k].eventType == Some("qr")
    requires forall j | k < j < |events| :: events[j].eventType != Some("qr")
    ensures QrAfter(qr, events) == QrOf(events[k])
    decreases |events|
  {
    var next := QrStep(qr, events[0]);
    if k == 0 {
      NoQrKeepsCode(next, events[1..]);
    } else {
      LastQrDecides(next, events[1..], k - 1);
    }
  }

  lemma {:induction false} NoQrKeepsCode(qr: Option<string>, events: seq<Event>)
    requires forall j | 0 <= j < |events| :: events[j].eventType != Some("qr")
    ensures QrAfter(qr, events) == qr
    decreases |events|
  {
    if events != [] {
      NoQrKeepsCode(qr, events[1..]);
    }
  }

  /** The payloads handed to the message handler, in order; none when there is no handler. */
  function Dispatched(hasHandler: bool, events: seq<Event>): seq<map<string, string>>
    decreases |events|
  {
    if events == [] then [] else DispatchStep(hasHandler, events[0]) + Dispatched(hasHandler, events[1..])
  }

  /** The events `_read_output` hands on: those of the lines before the first failing one. */
  function Handled(lines: seq<OutputLine>): (r: seq<Event>)
    ensures |r| <= |lines|
    decreases |lines|
  {
    if lines == [] then []
    else if lines[0] == Fault then []
    else if lines[0].EventLine? then [lines[0].event] + Handled(lines[1..])
    else Handled(lines[1..])
  }

  lemma HandledCons(line: OutputLine, rest: seq<OutputLine>)
    ensures Handled([line] + rest)
         == if line == Fault then []
            else if line.EventLine? then [line.event] + Handled(rest)
            else Handled(rest)
  {
    assert ([line] + rest)[1..] == rest;
  }

  /** Nothing after a failing line is handled: the reading has stopped. */
  lemma {:induction false} HandledStopsAtFault(before: seq<OutputLine>, after: seq<OutputLine>)
    requires forall j | 0 <= j < |before| :: before[j] != Fault
    ensures Handled(before + [Fault] + after) == Handled(before)
    decreases |before|
  {
    if before == [] {
      assert before + [Fault] + after == [Fault] + after;
      HandledCons(Fault, after);
    } else {
      var s := before + [Fault] + after;
      assert s == [before[0]] + (before[1..] + [Fault] + after);
      HandledCons(before[0], before[1..] + [Fault] + after);
      HandledStopsAtFault(before[1..], after);
      assert before == [before[0]] + before[1..];
      HandledCons(before[0], before[1..]);
    }
  }
}
