/** The chat page (static/js/plume.js): the enter / verify / message screens
    driven by form submits and socket events, the guarded socket operations,
    the bounded message log and the hash that colours user names. */
module ChatClient {
  import opened Strings

  // Message types of the chat protocol
  const MsgHello := 0
  const MsgText := 1
  const MsgAuth := 2
  const MsgAuthAck := 3
  const MsgAuthRst := 4
  const MsgMayNotEnter := 5

  /** The log drops its oldest entry before an append once it holds more than this. */
  const LogLimit := 500

  const AuthFailedAlert := "Verification failed: incorrect token"
  const NameTakenAlert := "Another user is already using that username. Try a different one."

  // ---------------------------------------------------------------------
  // JavaScript number semantics used by colorizeString

  const Two31 := 0x8000_0000
  const Two32 := 0x1_0000_0000

  /** ECMAScript ToInt32: wrap to a signed 32-bit integer. */
  function ToInt32(x: int): (r: int)
    ensures -Two31 <= r < Two31
    ensures r % Two32 == x % Two32
  {
    var m := x % Two32;
    if m >= Two31 then m - Two32 else m
  }

  /** ToInt32 only looks at its argument modulo 2^32. */
  lemma ToInt32Congruent(a: int, b: int)
    requires a % Two32 == b % Two32
    ensures ToInt32(a) == ToInt32(b)
  {
  }

  /** The UTF-16 code units of a string, as `charCodeAt` walks them: a
      character above U+FFFF is a surrogate pair. */
  function CodeUnits(s: string): (u: seq<int>)
    ensures forall k :: 0 <= k < |u| ==> 0 <= u[k] < 0x10000
  {
    if s == [] then []
    else
      var v := s[0] as int;
      var first := if v < 0x10000 then [v]
                   else [0xD800 + (v - 0x10000) / 0x400, 0xDC00 + (v - 0x10000) % 0x400];
      first + CodeUnits(s[1..])
  }

  /** One iteration of the loop body as written: `hash = ((hash << 5) - hash) + ch`
      followed by `hash = hash & hash`. For an int32 `hash`, `hash << 5` is
      ToInt32(32 * hash), and `x & x` is ToInt32(x). */
  function JsStep(hash: int, ch: int): int
  {
    ToInt32(ToInt32(hash * 32) - hash + ch)
  }

  /** The loop body is the wrapping step `hash := int32(31 * hash + ch)`. */
  lemma StepWraps(hash: int, ch: int)
    ensures JsStep(hash, ch) == ToInt32(31 * hash + ch)
  {
    var s := ToInt32(hash * 32);
    assert s % Two32 == (hash * 32) % Two32;
    assert (s - hash + ch) % Two32 == (31 * hash + ch) % Two32 by {
      assert (s - hash + ch) - (31 * hash + ch) == s - hash * 32;
    }
    ToInt32Congruent(s - hash + ch, 31 * hash + ch);
  }

  /** The hash after the code units `u`, one wrapping step per unit from 0. */
  function Hash(u: seq<int>): int
  {
    if u == [] then 0 else ToInt32(31 * Hash(u[..|u| - 1]) + u[|u| - 1])
  }

  /** The unwrapped polynomial hash: sum of u[i] * 31^(n-1-i). */
  function Poly(u: seq<int>): int
  {
    if u == [] then 0 else 31 * Poly(u[..|u| - 1]) + u[|u| - 1]
  }

  /** Wrapping at every step is the same as wrapping the polynomial once. */
  lemma {:induction false} HashIsWrappedPoly(u: seq<int>)
    ensures Hash(u) == ToInt32(Poly(u))
  {
    if u != [] {
      var init := u[..|u| - 1];
      var c := u[|u| - 1];
      HashIsWrappedPoly(init);
      var h := Hash(init);
      var p := Poly(init);
      assert h % Two32 == p % Two32;
      assert (31 * h + c) % Two32 == (31 * p + c) % Two32 by {
        assert (31 * h + c) - (31 * p + c) == 31 * (h - p);
        assert (h - p) % Two32 == 0;
      }
      ToInt32Congruent(31 * h + c, 31 * p + c);
    }
  }

  /** `Math.abs(hash % 360)`, with JavaScript's `%` taking the dividend's sign. */
  function Hue(hash: int): int
  {
    var rem := if hash >= 0 then hash % 360 else -((-hash) % 360);
    if rem < 0 then -rem else rem
  }

  /** The hue of a hash is its magnitude modulo 360, a degree in [0, 359]. */
  lemma HueOfMagnitude(hash: int)
    ensures Hue(hash) == (if hash < 0 then -hash else hash) % 360
    ensures 0 <= Hue(hash) < 360
  {
  }

  /** The hue `colorizeString` gives a user name. */
  function Colorize(s: string): int
  {
    Hue(Hash(CodeUnits(s)))
  }

  /** `colorizeString(s)`: the hue of `hsl(<hue>, 90%, 36%)`. */
  method ColorizeString(s: string) returns (hue: int)
    ensures hue == Colorize(s)
    ensures hue == Hue(ToInt32(Poly(CodeUnits(s))))
    ensures 0 <= hue < 360
  {
    var units := CodeUnits(s);
    var hash := 0;
    var i := 0;
    while i < |units|
      invariant 0 <= i <= |units|
      invariant hash == Hash(units[..i])
    {
      StepWraps(hash, units[i]);
      assert units[..i + 1][..i] == units[..i];
      hash := JsStep(hash, units[i]);
      i := i + 1;
    }
    assert units[..i] == units;
    var rem := if hash >= 0 then hash % 360 else -((-hash) % 360);
    hue := if rem < 0 then -rem else rem;
    HashIsWrappedPoly(units);
    HueOfMagnitude(hash);
  }

  // ---------------------------------------------------------------------
  // The bounded message log

  /** One rendered log line: `@user:` in the user's hue, then the text. */
  datatype Entry = Entry(user: string, text: string, hue: int)

  /** `logMessage`: drop the oldest entry when there are more than 500, then append. */
  function Logged(log: seq<Entry>, e: Entry): seq<Entry>
  {
    (if |log| > LogLimit then log[1..] else log) + [e]
  }

  /** The last `n` elements of `s` (all of them when there are fewer). */
  function Newest(s: seq<Entry>, n: nat): (r: seq<Entry>)
    ensures |r| == if |s| <= n then |s| else n
    ensures r == s[|s| - |r|..]
  {
    if |s| <= n then s else s[|s| - n..]
  }

  /** The log after appending each of `entries` in turn. */
  function LogAll(log: seq<Entry>, entries: seq<Entry>): seq<Entry>
    decreases |entries|
  {
    if entries == [] then log else LogAll(Logged(log, entries[0]), entries[1..])
  }

  /** One append keeps the log within 501 entries and is the newest 501 of
      the old log followed by the new entry. */
  lemma LoggedIsNewest(log: seq<Entry>, e: Entry)
    requires |log| <= LogLimit + 1
    ensures Logged(log, e) == Newest(log + [e], LogLimit + 1)
    ensures |Logged(log, e)| <= LogLimit + 1
  {
    if |log| > LogLimit {
      assert (log + [e])[|log + [e]| - (LogLimit + 1)..] == log[1..] + [e];
    }
  }

  lemma NewestTwice(s: seq<Entry>, t: seq<Entry>, n: nat)
    ensures Newest(Newest(s, n) + t, n) == Newest(s + t, n)
  {
    if |s| > n {
      var k := |s| - n;
      assert Newest(s, n) + t == (s + t)[k..];
    }
  }

  /** However many messages arrive, the log holds the newest 501 of them (and
      of what it held before), oldest first. */
  lemma {:induction false} LogKeepsNewest(log: seq<Entry>, entries: seq<Entry>)
    requires |log| <= LogLimit + 1
    ensures LogAll(log, entries) == Newest(log + entries, LogLimit + 1)
    decreases |entries|
  {
    if entries == [] {
      assert log + entries == log;
    } else {
      var e := entries[0];
      LoggedIsNewest(log, e);
      LogKeepsNewest(Logged(log, e), entries[1..]);
      NewestTwice(log + [e], entries[1..], LogLimit + 1);
      assert log + [e] + entries[1..] == log + entries;
    }
  }

  // ---------------------------------------------------------------------
  // Form input checks

  /** The characters JavaScript's `String.prototype.trim` removes. */
  predicate IsWhitespace(c: char)
  {
    || '\U{0009}' <= c <= '\U{000D}'
    || c == ' ' || c == '\U{00A0}' || c == '\U{1680}'
    || '\U{2000}' <= c <= '\U{200A}'
    || c == '\U{2028}' || c == '\U{2029}' || c == '\U{202F}' || c == '\U{205F}'
    || c == '\U{3000}' || c == '\U{FEFF}'
  }

  /** `!s.trim()`: nothing but whitespace. */
  predicate IsBlank(s: string)
  {
    forall i :: 0 <= i < |s| ==> IsWhitespace(s[i])
  }

  // ---------------------------------------------------------------------
  // The page

  /** The socket `connect(name, email)` opened; its open handler sends this pair. */
  datatype Socket = Socket(name: string, email: string)

  /** A frame written on the socket, `{type, text}`. */
  datatype Frame = Frame(kind: int, text: string)

  /** A message read from the socket; a Text carries `message.user.name`. */
  datatype Incoming =
    | HelloMsg
    | TextMsg(user: string, text: string)
    | AuthMsg
    | AuthAckMsg
    | AuthRstMsg
    | MayNotEnterMsg
    | UnknownMsg(kind: int)

  class Plume {
    /** The module-level `conn`. */
    var conn: Option<Socket>
    /** Frames written on a socket, oldest first. */
    var outbox: seq<Frame>
    var enterShown: bool
    var verifyShown: bool
    var messageShown: bool
    /** `window.alert` texts, oldest first. */
    var alerts: seq<string>
    /** The `.messageList` items, oldest first. */
    var log: seq<Entry>

    ghost predicate Valid()
      reads this
    {
      |log| <= LogLimit + 1
    }

    /** Page load: no socket, and only the enter form is shown. */
    constructor ()
      ensures Valid()
      ensures conn.None? && outbox == [] && alerts == [] && log == []
      ensures enterShown && !verifyShown && !messageShown
    {
      conn := None;
      outbox := [];
      enterShown := true;
      verifyShown := false;
      messageShown := false;
      alerts := [];
      log := [];
    }

    /** `logMessage(user, text)`. */
    method LogMessage(user: string, text: string)
      requires Valid()
      modifies this`log
      ensures Valid()
      ensures log == Logged(old(log), Entry(user, text, Colorize(user)))
    {
      var hue := ColorizeString(user);
      LoggedIsNewest(log, Entry(user, text, hue));
      if |log| > LogLimit {
        log := log[1..];
      }
      log := log + [Entry(user, text, hue)];
    }

    /** `connect(name, email)`: a new socket takes the `conn` slot. */
    method Connect(name: string, email: string)
      modifies this`conn
      ensures conn == Some(Socket(name, email))
    {
      conn := Some(Socket(name, email));
    }

    /** The socket's open event: send Hello `"name\nemail"` and move from the
        enter form to the verify form. */
    method OnOpen()
      requires conn.Some?
      modifies this`outbox, this`enterShown, this`verifyShown
      ensures outbox == old(outbox) + [Frame(MsgHello, conn.value.name + "\n" + conn.value.email)]
      ensures !enterShown && verifyShown
    {
      outbox := outbox + [Frame(MsgHello, conn.value.name + "\n" + conn.value.email)];
      enterShown := false;
      verifyShown := true;
    }

    /** The socket's message event, by type. */
    method OnMessage(m: Incoming)
      requires Valid()
      modifies this`log, this`enterShown, this`verifyShown, this`messageShown, this`alerts
      ensures Valid()
      ensures log == if m.TextMsg? then Logged(old(log), Entry(m.user, m.text, Colorize(m.user))) else old(log)
      ensures enterShown == if m.MayNotEnterMsg? then true else old(enterShown)
      ensures verifyShown == if m.AuthAckMsg? || m.MayNotEnterMsg? then false else old(verifyShown)
      ensures messageShown == if m.AuthAckMsg? then true else old(messageShown)
      ensures alerts == if m.AuthRstMsg? then old(alerts) + [AuthFailedAlert]
                        else if m.MayNotEnterMsg? then old(alerts) + [NameTakenAlert]
                        else old(alerts)
    {
      match m
      case HelloMsg =>
      case TextMsg(user, text) => LogMessage(user, text);
      case AuthMsg =>
      case AuthAckMsg =>
        verifyShown := false;
        messageShown := true;
      case AuthRstMsg =>
        alerts := alerts + [AuthFailedAlert];
      case MayNotEnterMsg =>
        enterShown := true;
        verifyShown := false;
        alerts := alerts + [NameTakenAlert];
      case UnknownMsg(_) =>
    }

    /** `verify(token)`: an Auth frame, only with a socket. */
    method Verify(token: string)
      modifies this`outbox
      ensures outbox == if conn.Some? then old(outbox) + [Frame(MsgAuth, token)] else old(outbox)
    {
      if conn.None? {
        return;
      }
      outbox := outbox + [Frame(MsgAuth, token)];
    }

    /** `send(text)`: a Text frame, only with a socket. */
    method Send(text: string)
      modifies this`outbox
      ensures outbox == if conn.Some? then old(outbox) + [Frame(MsgText, text)] else old(outbox)
    {
      if conn.None? {
        return;
      }
      outbox := outbox + [Frame(MsgText, text)];
    }

    /** `close()`: afterwards there is no socket, so a second close does nothing. */
    method Close()
      modifies this`conn
      ensures conn.None?
    {
      if conn.None? {
        return;
      }
      conn := None;
    }

    /** The enter form: both fields must be non-empty. */
    method SubmitEnter(name: string, email: string)
      modifies this`conn
      ensures name == "" || email == "" ==> conn == old(conn)
      ensures name != "" && email != "" ==> conn == Some(Socket(name, email))
    {
      if name == "" || email == "" {
        return;
      }
      Connect(name, email);
    }

    /** The verify form: a blank token is not sent. */
    method SubmitVerify(token: string)
      modifies this`outbox
      ensures outbox == if !IsBlank(token) && conn.Some? then old(outbox) + [Frame(MsgAuth, token)]
                        else old(outbox)
    {
      if IsBlank(token) {
        return;
      }
      Verify(token);
    }

    /** The message form: blank text is not sent. */
    method SubmitMessage(text: string)
      modifies this`outbox
      ensures outbox == if !IsBlank(text) && conn.Some? then old(outbox) + [Frame(MsgText, text)]
                        else old(outbox)
    {
      if IsBlank(text) {
        return;
      }
      Send(text);
    }
  }
}
