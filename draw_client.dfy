/** The drawing client (`App` in static/js/ui.js): stroke capture with palm
    rejection and smoothing, the committed strokes, the presence roster, the
    toast queue, the persisted profile and the frames written on the socket. */
module DrawClient {
  import opened Strings

  // Message types of the drawing protocol
  const MsgHello := 0
  const MsgText := 1
  const MsgChangeUser := 2
  const MsgPresentUsers := 3
  const MsgEmptyCanvas := 4

  const DefaultUser := "user"
  const DefaultColor := "#333333"

  /** A move further than this (squared) from the last point is a palm jump. */
  const PalmRejectionLimit := 200 * 200
  /** A move at most this far (squared) from the last point is dropped. */
  const CurveSmoothingLimit := 10

  /** Pointer coordinates; only squared distances are ever compared. */
  datatype Point = Point(x: int, y: int)

  datatype User = User(name: string, color: string)

  /** A stroke: its colour and the points of one gesture, in order. */
  datatype Curve = Curve(color: string, points: seq<Point>)

  /** A touch event lists at least one touch; the handlers only look at the
      first one and at how many there are. */
  type TouchCount = n: nat | n >= 1 witness 1

  datatype PointerEvent = Mouse(at: Point) | Touch(first: Point, touches: TouchCount)
  {
    /** `evt.clientX, evt.clientY`, after `evt = evt.touches[0]` for touches. */
    function Position(): Point
    {
      match this
      case Mouse(p) => p
      case Touch(p, _) => p
    }
  }

  /** A frame written on the socket, `{type, text}`. The text of a stroke frame
      is the JSON serialisation of `curve`; an EmptyCanvas frame has no text. */
  datatype Frame =
    | HelloFrame(text: string)
    | StrokeFrame(curve: Curve)
    | ChangeUserFrame(text: string)
    | EmptyCanvasFrame
  {
    function Type(): int
    {
      match this
      case HelloFrame(_) => MsgHello
      case StrokeFrame(_) => MsgText
      case ChangeUserFrame(_) => MsgChangeUser
      case EmptyCanvasFrame => MsgEmptyCanvas
    }
  }

  /** A message read from the socket, by `type`. The JSON payloads of Text and
      PresentUsers arrive as the outcome of `JSON.parse` (None when it throws). */
  datatype Incoming =
    | HelloMsg(text: string)
    | TextMsg(curve: Option<Curve>)
    | ChangeUserMsg(user: User, text: string)
    | PresentUsersMsg(users: Option<seq<User>>)
    | EmptyCanvasMsg(user: User)
    | UnknownMsg(kind: int)

  /** What localStorage holds under 'state0': a profile, or text that does
      not parse. */
  datatype Stored = Record(name: string, color: string) | Corrupt

  // ---------------------------------------------------------------------
  // The stroke filter

  function SqDist(a: Point, b: Point): int
  {
    (a.x - b.x) * (a.x - b.x) + (a.y - b.y) * (a.y - b.y)
  }

  /** What `onMove` does with a sample while dragging from `last`. */
  datatype Verdict = Jump | TooClose | Extend

  function Judge(last: Point, p: Point): Verdict
  {
    var d := SqDist(last, p);
    if d > PalmRejectionLimit then Jump
    else if d <= CurveSmoothingLimit then TooClose
    else Extend
  }

  /** The points one drag keeps, and whether a palm jump ended it. */
  datatype Trace = Trace(kept: seq<Point>, jumped: bool)

  /** The points `onMove` appends for the samples that follow a press (or a
      kept point) at `last`, until the first jump, which keeps nothing. */
  function Track(last: Point, samples: seq<Point>): Trace
    decreases |samples|
  {
    if samples == [] then Trace([], false)
    else match Judge(last, samples[0])
      case Jump => Trace([], true)
      case TooClose => Track(last, samples[1..])
      case Extend =>
        var t := Track(samples[0], samples[1..]);
        Trace([samples[0]] + t.kept, t.jumped)
  }

  /** Every step between neighbours is longer than the smoothing limit and
      no longer than the palm-rejection limit. */
  predicate Spaced(s: seq<Point>)
  {
    forall i :: 0 < i < |s| ==> CurveSmoothingLimit < SqDist(s[i - 1], s[i]) <= PalmRejectionLimit
  }

  predicate IsSubsequence(a: seq<Point>, b: seq<Point>)
  {
    if a == [] then true
    else if b == [] then false
    else (a[0] == b[0] && IsSubsequence(a[1..], b[1..])) || IsSubsequence(a, b[1..])
  }

  /** A point that `Judge` would keep extends a spaced run of points that
      ends where the drag last was. */
  lemma ExtendSpaced(s: seq<Point>, start: nat, p: Point)
    requires start <= |s| && Spaced(s[start..])
    requires start < |s| ==> CurveSmoothingLimit < SqDist(s[|s| - 1], p) <= PalmRejectionLimit
    ensures Spaced((s + [p])[start..])
  {
    var t := (s + [p])[start..];
    assert t == s[start..] + [p];
    forall i | 0 < i < |t|
      ensures CurveSmoothingLimit < SqDist(t[i - 1], t[i]) <= PalmRejectionLimit
    {
      if i < |t| - 1 {
        assert t[i - 1] == s[start..][i - 1] && t[i] == s[start..][i];
      }
    }
  }

  /** The press point and the points kept after it are consecutively far
      enough apart and never a jump apart. */
  lemma {:induction false} TrackSpaced(last: Point, samples: seq<Point>)
    ensures Spaced([last] + Track(last, samples).kept)
    decreases |samples|
  {
    if samples != [] {
      match Judge(last, samples[0])
      case Jump =>
      case TooClose => TrackSpaced(last, samples[1..]);
      case Extend =>
        var t := Track(samples[0], samples[1..]);
        TrackSpaced(samples[0], samples[1..]);
        var s := [last] + ([samples[0]] + t.kept);
        assert s == [last] + Track(last, samples).kept;
        assert s[1..] == [samples[0]] + t.kept;
        forall i | 0 < i < |s|
          ensures CurveSmoothingLimit < SqDist(s[i - 1], s[i]) <= PalmRejectionLimit
        {
          if i > 1 {
            assert s[i - 1] == s[1..][i - 2] && s[i] == s[1..][i - 1];
          }
        }
    }
  }

  /** The kept points are samples, in the order they came. */
  lemma {:induction false} TrackSubsequence(last: Point, samples: seq<Point>)
    ensures IsSubsequence(Track(last, samples).kept, samples)
    decreases |samples|
  {
    if samples != [] {
      match Judge(last, samples[0])
      case Jump =>
      case TooClose =>
        TrackSubsequence(last, samples[1..]);
      case Extend =>
        TrackSubsequence(samples[0], samples[1..]);
        var kept := Track(last, samples).kept;
        assert kept[0] == samples[0] && kept[1..] == Track(samples[0], samples[1..]).kept;
    }
  }

  /** After a jump, later samples neither extend the stroke nor start a new one. */
  lemma {:induction false} TrackStopsAtJump(last: Point, samples: seq<Point>, more: seq<Point>)
    requires Track(last, samples).jumped
    ensures Track(last, samples + more) == Track(last, samples)
    decreases |samples|
  {
    assert samples != [];
    assert (samples + more)[0] == samples[0];
    assert (samples + more)[1..] == samples[1..] + more;
    match Judge(last, samples[0])
    case Jump =>
    case TooClose => TrackStopsAtJump(last, samples[1..], more);
    case Extend => TrackStopsAtJump(samples[0], samples[1..], more);
  }

  /** A press at (0,0), a move to (1,1) that is too close, a move to (50,50)
      that is kept: the stroke holds exactly the two points. */
  lemma SmoothingScenario()
    ensures [Point(0, 0)] + Track(Point(0, 0), [Point(1, 1), Point(50, 50)]).kept
         == [Point(0, 0), Point(50, 50)]
  {
  }

  // ---------------------------------------------------------------------
  // The roster

  /** `"<name>\n<color>"` as the Hello and ChangeUser handlers read it: the
      first two parts, each of which must be non-empty. */
  function ParseIdentity(text: string): Option<User>
  {
    var parts := Split(text, '\n');
    if |parts| < 2 || parts[0] == "" || parts[1] == "" then None
    else Some(User(parts[0], parts[1]))
  }

  /** The text this client sends for its own identity reads back as that identity. */
  lemma ParseIdentityOfPayload(name: string, color: string)
    requires name != "" && color != ""
    requires '\n' !in name && '\n' !in color
    ensures ParseIdentity(name + "\n" + color) == Some(User(name, color))
  {
    SplitPair(name, color, '\n');
  }

  /** An accepted payload starts with the identity's own encoding, whose two
      fields are non-empty and free of newlines; a payload without a newline,
      or with an empty first or second field, is refused. */
  lemma ParseIdentitySound(text: string)
    ensures ParseIdentity(text).Some? ==>
      var u := ParseIdentity(text).value;
      && u.name != "" && u.color != "" && '\n' !in u.name && '\n' !in u.color
      && u.name + "\n" + u.color <= text
    ensures '\n' !in text ==> ParseIdentity(text).None?
  {
    var parts := Split(text, '\n');
    JoinSplit(text, '\n');
    if |parts| >= 2 {
      assert Join(parts, '\n') == parts[0] + ['\n'] + Join(parts[1..], '\n');
      if |parts[1..]| == 1 {
        assert Join(parts[1..], '\n') == parts[1];
      } else {
        assert Join(parts[1..], '\n') == parts[1] + ['\n'] + Join(parts[2..], '\n');
      }
    }
    if '\n' !in text {
      NoSeparatorOnePart(text, '\n');
    }
  }

  lemma {:induction false} NoSeparatorOnePart(s: string, sep: char)
    requires sep !in s
    ensures Count(s, sep) == 0
  {
    if s != [] {
      NoSeparatorOnePart(s[1..], sep);
    }
  }

  /** The roster after a rename of `prev` to `next`: the first entry equal to
      `prev` is replaced, every other entry stays. */
  function Rename(users: seq<User>, prev: User, next: User): seq<User>
  {
    if users == [] then []
    else if users[0] == prev then [next] + users[1..]
    else [users[0]] + Rename(users[1..], prev, next)
  }

  /** When `i` is the first match, the rename replaces exactly entry `i`. */
  lemma {:induction false} RenameAt(users: seq<User>, prev: User, next: User, i: nat)
    requires i < |users| && users[i] == prev
    requires forall j :: 0 <= j < i ==> users[j] != prev
    ensures Rename(users, prev, next) == users[i := next]
  {
    if i > 0 {
      RenameAt(users[1..], prev, next, i - 1);
      assert users[i := next] == [users[0]] + users[1..][i - 1 := next];
    }
  }

  /** Without a match the rename is a no-op. */
  lemma {:induction false} RenameAbsent(users: seq<User>, prev: User, next: User)
    requires prev !in users
    ensures Rename(users, prev, next) == users
  {
    if users != [] {
      RenameAbsent(users[1..], prev, next);
      assert users == [users[0]] + users[1..];
    }
  }

  /** A rename of an identity that is present changes exactly one entry, at
      its first occurrence; of one that is absent, none. */
  lemma RenameChangesOne(users: seq<User>, prev: User, next: User)
    ensures prev in users ==>
      exists i :: 0 <= i < |users| && users[i] == prev &&
        (forall j :: 0 <= j < i ==> users[j] != prev) &&
        Rename(users, prev, next) == users[i := next]
    ensures prev !in users ==> Rename(users, prev, next) == users
  {
    if prev in users {
      var i := FirstIndex(users, prev);
      RenameAt(users, prev, next, i);
    } else {
      RenameAbsent(users, prev, next);
    }
  }

  function FirstIndex(users: seq<User>, u: User): (i: nat)
    requires u in users
    ensures i < |users| && users[i] == u
    ensures forall j :: 0 <= j < i ==> users[j] != u
  {
    if users[0] == u then 0 else 1 + FirstIndex(users[1..], u)
  }

  /** A snapshot [a, b] followed by a rename of a to c gives [c, b]. */
  lemma SnapshotRenameScenario()
    ensures Rename([User("a", "#111"), User("b", "#222")], User("a", "#111"), User("c", "#333"))
         == [User("c", "#333"), User("b", "#222")]
  {
  }

  // ---------------------------------------------------------------------
  // The application state

  class App {
    var name: string
    var color: string
    /** Whether the profile dialog is open. */
    var editingUser: bool
    /** `conn !== null`. */
    var connected: bool
    /** Frames written on `conn`, oldest first. */
    var outbox: seq<Frame>
    /** localStorage['state0']. */
    var storage: Option<Stored>
    var users: seq<User>
    /** Toast texts, oldest first. */
    var toasts: seq<string>
    var curves: seq<Curve>
    var currentCurve: seq<Point>
    var isDragging: bool
    var xLast: Option<int>
    var yLast: Option<int>
    /** Where the points of the drag in progress begin in `currentCurve`
        (earlier points are left over from a press that was never released). */
    ghost var strokeStart: nat

    /** The last point is recorded exactly while a drag is in progress. The
        points pushed since the press are consecutively more than the
        smoothing limit and at most the palm-rejection limit apart, and the
        last of them is the recorded last point. */
    ghost predicate Valid()
      reads this
    {
      && (isDragging ==> xLast.Some? && yLast.Some?)
      && (!isDragging ==> xLast.None? && yLast.None?)
      && (isDragging ==> strokeStart <= |currentCurve| && Spaced(currentCurve[strokeStart..]))
      && (isDragging && strokeStart < |currentCurve| ==>
            currentCurve[|currentCurve| - 1] == Point(xLast.value, yLast.value))
    }

    /** `init()`: default profile, then whatever the store restores; the
        dialog opens when the profile is still the default; `connect()`
        leaves a socket in `conn`. */
    constructor (stored: Option<Stored>)
      ensures Valid()
      ensures storage == stored
      ensures match stored
        case Some(Record(n, c)) => name == n && color == c
        case _ => name == DefaultUser && color == DefaultColor
      ensures editingUser == (name == DefaultUser && color == DefaultColor)
      ensures connected && outbox == []
      ensures users == [] && toasts == [] && curves == [] && currentCurve == []
      ensures !isDragging
    {
      name := DefaultUser;
      color := DefaultColor;
      storage := stored;
      connected := false;
      outbox := [];
      users := [];
      toasts := [];
      curves := [];
      currentCurve := [];
      isDragging := false;
      xLast := None;
      yLast := None;
      strokeStart := 0;
      editingUser := false;
      new;
      TryRestoreState();
      editingUser := name == DefaultUser && color == DefaultColor;
      connected := true;
    }

    /** `saveState()`. */
    method SaveState()
      modifies this`storage
      ensures storage == Some(Record(name, color))
    {
      storage := Some(Record(name, color));
    }

    /** `tryRestoreState()`: an absent key or unparsable text keeps the
        current profile. */
    method TryRestoreState()
      modifies this`name, this`color
      ensures match storage
        case Some(Record(n, c)) => name == n && color == c
        case _ => name == old(name) && color == old(color)
    {
      match storage
      case None =>
      case Some(Corrupt) =>
      case Some(Record(n, c)) =>
        name := n;
        color := c;
    }

    /** The socket's open event: introduce this client. */
    method OnOpen()
      requires connected
      modifies this`outbox
      ensures outbox == old(outbox) + [HelloFrame(name + "\n" + color)]
    {
      outbox := outbox + [HelloFrame(name + "\n" + color)];
    }

    /** `send(text)`: the only text this client sends is a serialised stroke. */
    method Send(curve: Curve)
      modifies this`outbox
      ensures outbox == if connected then old(outbox) + [StrokeFrame(curve)] else old(outbox)
    {
      if !connected {
        return;
      }
      outbox := outbox + [StrokeFrame(curve)];
    }

    /** `toast(text)`; its timer is `ExpireOldest`. */
    method Toast(text: string)
      modifies this`toasts
      ensures toasts == old(toasts) + [text]
    {
      toasts := toasts + [text];
    }

    /** A toast timer firing: `toasts.shift()`, a no-op on an empty queue. */
    method ExpireOldest()
      modifies this`toasts
      ensures old(toasts) == [] ==> toasts == []
      ensures old(toasts) != [] ==> toasts == old(toasts)[1..]
    {
      if toasts != [] {
        toasts := toasts[1..];
      }
    }

    method PushPt(p: Point)
      modifies this`currentCurve
      ensures currentCurve == old(currentCurve) + [p]
    {
      currentCurve := currentCurve + [p];
    }

    /** Commit the stroke in progress, start an empty one and send the
        committed stroke. */
    method PushCurve()
      modifies this`currentCurve, this`curves, this`outbox
      ensures curves == old(curves) + [Curve(color, old(currentCurve))]
      ensures currentCurve == []
      ensures outbox == if connected then old(outbox) + [StrokeFrame(Curve(color, old(currentCurve)))]
                        else old(outbox)
    {
      var curve := Curve(color, currentCurve);
      currentCurve := [];
      curves := curves + [curve];
      Send(curve);
    }

    /** Press: a touch with more than one contact is ignored; otherwise the
        drag starts and the press point is recorded and pushed. */
    method OnStart(e: PointerEvent)
      requires Valid()
      modifies this`isDragging, this`xLast, this`yLast, this`currentCurve, this`strokeStart
      ensures Valid()
      ensures e.Touch? && e.touches > 1 ==> unchanged(this)
      ensures !(e.Touch? && e.touches > 1) ==>
        && isDragging
        && xLast == Some(e.Position().x) && yLast == Some(e.Position().y)
        && currentCurve == old(currentCurve) + [e.Position()]
        && currentCurve[strokeStart..] == [e.Position()]
    {
      if e.Touch? && e.touches > 1 {
        return;
      }
      var p := e.Position();
      isDragging := true;
      xLast := Some(p.x);
      yLast := Some(p.y);
      strokeStart := |currentCurve|;
      PushPt(p);
    }

    /** Release: stop dragging and commit, whether or not a drag was on. */
    method OnEnd()
      requires Valid()
      modifies this`isDragging, this`xLast, this`yLast, this`currentCurve, this`curves, this`outbox
      ensures Valid() && !isDragging
      ensures curves == old(curves) + [Curve(color, old(currentCurve))]
      ensures old(isDragging) ==> Spaced(curves[|curves| - 1].points[old(strokeStart)..])
      ensures currentCurve == []
      ensures outbox == if connected then old(outbox) + [StrokeFrame(Curve(color, old(currentCurve)))]
                        else old(outbox)
    {
      isDragging := false;
      xLast := None;
      yLast := None;
      PushCurve();
    }

    /** Move: ignored unless dragging; a palm jump commits the stroke without
        the sample and ends the drag; a sample too close is dropped; any
        other sample is appended and becomes the last point. */
    method OnMove(e: PointerEvent)
      requires Valid()
      modifies this`isDragging, this`xLast, this`yLast, this`currentCurve, this`curves, this`outbox
      ensures Valid()
      ensures !old(isDragging) ==> unchanged(this)
      ensures old(isDragging) ==>
        var last := Point(old(xLast).value, old(yLast).value);
        var p := e.Position();
        match Judge(last, p)
        case Jump =>
          && !isDragging
          && curves == old(curves) + [Curve(color, old(currentCurve))]
          && Spaced(curves[|curves| - 1].points[old(strokeStart)..])
          && currentCurve == []
          && outbox == (if connected then old(outbox) + [StrokeFrame(Curve(color, old(currentCurve)))]
                        else old(outbox))
        case TooClose => unchanged(this)
        case Extend =>
          && isDragging && xLast == Some(p.x) && yLast == Some(p.y)
          && currentCurve == old(currentCurve) + [p]
          && curves == old(curves) && outbox == old(outbox)
    {
      var p := e.Position();
      if !isDragging {
        return;
      }
      var xDif := xLast.value - p.x;
      var yDif := yLast.value - p.y;
      var sqDist := xDif * xDif + yDif * yDif;
      if sqDist > PalmRejectionLimit {
        isDragging := false;
        xLast := None;
        yLast := None;
        PushCurve();
        return;
      }
      if sqDist <= CurveSmoothingLimit {
        return;
      }
      ExtendSpaced(currentCurve, strokeStart, p);
      xLast := Some(p.x);
      yLast := Some(p.y);
      PushPt(p);
    }

    /** The clear button: drop every stroke locally, then tell the others. */
    method EmptyCanvas()
      requires Valid()
      modifies this`curves, this`currentCurve, this`outbox, this`strokeStart
      ensures Valid()
      ensures curves == [] && currentCurve == []
      ensures outbox == if connected then old(outbox) + [EmptyCanvasFrame] else old(outbox)
    {
      curves := [];
      currentCurve := [];
      strokeStart := 0;
      if !connected {
        return;
      }
      outbox := outbox + [EmptyCanvasFrame];
    }

    /** `changeUser(name, color)`: the local profile always changes; it is
        saved and announced only with a connection. */
    method ChangeUser(n: string, c: string)
      modifies this`name, this`color, this`storage, this`outbox
      ensures name == n && color == c
      ensures connected ==> storage == Some(Record(n, c))
      ensures connected ==> outbox == old(outbox) + [ChangeUserFrame(n + "\n" + c)]
      ensures !connected ==> storage == old(storage) && outbox == old(outbox)
    {
      name := n;
      color := c;
      if !connected {
        return;
      }
      SaveState();
      outbox := outbox + [ChangeUserFrame(n + "\n" + c)];
    }

    /** The profile dialog's save callback. */
    method SaveProfile(n: string, c: string)
      modifies this`name, this`color, this`storage, this`outbox, this`editingUser
      ensures name == n && color == c && !editingUser
      ensures connected ==> storage == Some(Record(n, c))
      ensures connected ==> outbox == old(outbox) + [ChangeUserFrame(n + "\n" + c)]
      ensures !connected ==> storage == old(storage) && outbox == old(outbox)
    {
      ChangeUser(n, c);
      editingUser := false;
    }

    /** The "profile..." button. */
    method ToggleProfileDialog()
      modifies this`editingUser
      ensures editingUser == !old(editingUser)
    {
      editingUser := !editingUser;
    }

    /** Hello: a peer with a well-formed identity joins the roster, duplicates
        included. */
    method OnHello(text: string)
      modifies this`users
      ensures ParseIdentity(text).None? ==> users == old(users)
      ensures ParseIdentity(text).Some? ==> users == old(users) + [ParseIdentity(text).value]
    {
      var parsed := ParseIdentity(text);
      if parsed.None? {
        return;
      }
      users := users + [parsed.value];
    }

    /** Text: a stroke that parses is committed; one that does not is dropped. */
    method OnText(curve: Option<Curve>)
      modifies this`curves
      ensures curves == if curve.Some? then old(curves) + [curve.value] else old(curves)
    {
      if curve.Some? {
        curves := curves + [curve.value];
      }
    }

    /** EmptyCanvas from a peer: only a toast; the local strokes stay. */
    method OnEmptyCanvas(sender: User)
      modifies this`toasts
      ensures toasts == old(toasts) + [sender.name + " cleared"]
    {
      Toast(sender.name + " cleared");
    }

    /** ChangeUser: rename the first roster entry equal to the sender's old
        identity, if the payload is well formed. */
    method OnChangeUser(prev: User, text: string)
      modifies this`users
      ensures ParseIdentity(text).None? ==> users == old(users)
      ensures ParseIdentity(text).Some? ==> users == Rename(old(users), prev, ParseIdentity(text).value)
    {
      var parsed := ParseIdentity(text);
      if parsed.None? {
        return;
      }
      var next := parsed.value;
      var i := 0;
      while i < |users|
        invariant 0 <= i <= |users|
        invariant users == old(users)
        invariant forall j :: 0 <= j < i ==> users[j] != prev
      {
        if users[i] == prev {
          RenameAt(users, prev, next, i);
          users := users[i := next];
          return;
        }
        i := i + 1;
      }
      RenameAbsent(users, prev, next);
    }

    /** PresentUsers: a snapshot that parses replaces the roster wholesale. */
    method OnPresentUsers(snapshot: Option<seq<User>>)
      modifies this`users
      ensures users == if snapshot.Some? then snapshot.value else old(users)
    {
      if snapshot.Some? {
        users := snapshot.value;
      }
    }

    /** The socket's message event, by type; unknown types are ignored. */
    method OnMessage(m: Incoming)
      modifies this`users, this`curves, this`toasts
      ensures curves == if m.TextMsg? && m.curve.Some? then old(curves) + [m.curve.value] else old(curves)
      ensures toasts == if m.EmptyCanvasMsg? then old(toasts) + [m.user.name + " cleared"] else old(toasts)
      ensures users == match m
        case HelloMsg(text) =>
          if ParseIdentity(text).Some? then old(users) + [ParseIdentity(text).value] else old(users)
        case ChangeUserMsg(prev, text) =>
          if ParseIdentity(text).Some? then Rename(old(users), prev, ParseIdentity(text).value) else old(users)
        case PresentUsersMsg(snapshot) =>
          if snapshot.Some? then snapshot.value else old(users)
        case _ => old(users)
    {
      match m
      case HelloMsg(text) => OnHello(text);
      case TextMsg(curve) => OnText(curve);
      case EmptyCanvasMsg(sender) => OnEmptyCanvas(sender);
      case ChangeUserMsg(prev, text) => OnChangeUser(prev, text);
      case PresentUsersMsg(snapshot) => OnPresentUsers(snapshot);
      case UnknownMsg(_) =>
    }
  }
}
