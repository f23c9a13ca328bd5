/** IMAP polling by UID cursor, over any sequence of arrivals, deletions and polls of a mailbox whose UIDs ascend and whose
    UIDVALIDITY does not change. */
module ImapCursor {
  import opened Wrappers

  // ------------------------------------------------------------------ one poll

  function Insert(u: nat, s: seq<nat>): seq<nat> {
    if s == [] || u <= s[0] then [u] + s else [s[0]] + Insert(u, s[1..])
  }

  function Sort(s: seq<nat>): seq<nat> { if s == [] then [] else Insert(s[0], Sort(s[1..])) }

  function Above(s: seq<nat>, cursor: nat): seq<nat> {
    if s == [] then [] else (if s[0] > cursor then [s[0]] else []) + Above(s[1..], cursor)
  }

  function Largest(s: seq<nat>): nat {
    if s == [] then 0 else if s[0] >= Largest(s[1..]) then s[0] else Largest(s[1..])
  }

  /** What one search and the fetches after it bring: every uid crossed, and whether its fetch carried a payload. */
  datatype Crossing = Crossing(uid: nat, payload: bool)

  function Cross(uids: seq<nat>, fetched: nat -> bool): seq<Crossing> {
    if uids == [] then [] else [Crossing(uids[0], fetched(uids[0]))] + Cross(uids[1..], fetched)
  }

  datatype Polled = Polled(cursor: nat, crossed: seq<Crossing>)

  /** Without a cursor the poll only records the mailbox's largest uid. */
  function Poll(cursor: Option<nat>, answer: seq<nat>, fetched: nat -> bool): Polled {
    match cursor
    case None => Polled(Largest(answer), [])
    case Some(c) =>
      var uids := Sort(Above(answer, c));
      Polled(if uids == [] then c else uids[|uids| - 1], Cross(uids, fetched))
  }

  /** The blocking leg: search, sort, then fetch one by one. `raws` are the uids whose fetch carried a payload. */
  method PollMailbox(cursor: Option<nat>, answer: seq<nat>, fetched: nat -> bool)
    returns (newCursor: nat, raws: seq<nat>)
    ensures var p := Poll(cursor, answer, fetched); newCursor == p.cursor && raws == Payloads(p.crossed)
  {
    hide Sort;
    hide Above;
    hide Cross;
    hide Payloads;
    if cursor.None? {
      NoPayloads();
      return Largest(answer), [];
    }
    var uids := Sort(Above(answer, cursor.value));
    raws := [];
    var i := 0;
    while i < |uids|
      invariant 0 <= i <= |uids|
      invariant Payloads(Cross(uids[0..], fetched)) == raws + Payloads(Cross(uids[i..], fetched))
    {
      CrossNext(uids, i, fetched);
      if fetched(uids[i]) { raws := raws + [uids[i]]; }
      i := i + 1;
    }
    CrossDone(uids, fetched);
    return if uids == [] then cursor.value else uids[|uids| - 1], raws;
  }

  lemma CrossNext(uids: seq<nat>, i: nat, fetched: nat -> bool)
    requires i < |uids|
    ensures uids[i..] != [] && Payloads(Cross(uids[i..], fetched)) ==
            (if fetched(uids[i]) then [uids[i]] else []) + Payloads(Cross(uids[i + 1..], fetched))
  {
    assert uids[i..][1..] == uids[i + 1..] && uids[i..][0] == uids[i];
    PayloadsFirst(Crossing(uids[i], fetched(uids[i])), Cross(uids[i + 1..], fetched));
  }

  lemma NoPayloads()
    ensures Payloads([]) == []
  {
  }

  lemma CrossDone(uids: seq<nat>, fetched: nat -> bool)
    ensures Payloads(Cross(uids[|uids|..], fetched)) == [] && uids[0..] == uids
  {
  }

  function Payloads(crossed: seq<Crossing>): seq<nat> {
    if crossed == [] then [] else (if crossed[0].payload then [crossed[0].uid] else []) + Payloads(crossed[1..])
  }

  lemma PayloadsFirst(c: Crossing, rest: seq<Crossing>)
    ensures Payloads([c] + rest) == (if c.payload then [c.uid] else []) + Payloads(rest)
  {
    assert ([c] + rest)[1..] == rest;
  }

  // ------------------------------------------------------------------ the mailbox over time

  predicate IsLargest(mail: set<nat>, u: nat) { u in mail && forall v :: v in mail ==> v <= u }

  predicate Distinct(s: seq<nat>) { forall i, j :: 0 <= i < j < |s| ==> s[i] != s[j] }

  /** A correct answer to `UID from:*`, in any order: everything from there on, and always the newest message, even when
      it lies below. Without a cursor the search is for all. */
  ghost predicate Answers(mail: set<nat>, cursor: Option<nat>, answer: seq<nat>) {
    Distinct(answer)
    && forall u :: u in answer <==> u in mail && (cursor.None? || u > cursor.value || IsLargest(mail, u))
  }

  /** What the door does with one payload. */
  datatype Reception = Created | Appended | Ignored | Blocked | Explodes

  datatype State = State(
    mail: set<nat>,
    next: nat,                  // every uid ever assigned is below this
    cursor: Option<nat>,
    baseline: nat,
    crossed: seq<Crossing>)     // over all committed polls

  datatype Step =
    | Arrive(uid: nat)
    | Delete(uid: nat)
    | PollOnce(answer: seq<nat>, fetched: nat -> bool, door: nat -> Reception)

  ghost predicate Enabled(s: State, step: Step) {
    match step
    case Arrive(uid) => uid >= s.next && uid > 0
    case Delete(_) => true
    case PollOnce(answer, _, _) => Answers(s.mail, s.cursor, answer)
  }

  /** A poll commits unless receiving one of its payloads raises something other than a blocked contact. */
  predicate Commits(raws: seq<nat>, door: nat -> Reception) {
    forall k :: 0 <= k < |raws| ==> door(raws[k]) != Explodes
  }

  function Next(s: State, step: Step): State {
    match step
    case Arrive(uid) => s.(mail := s.mail + {uid}, next := uid + 1)
    case Delete(uid) => s.(mail := s.mail - {uid})
    case PollOnce(answer, fetched, door) =>
      var p := Poll(s.cursor, answer, fetched);
      if !Commits(Payloads(p.crossed), door) then s
      else s.(cursor := Some(p.cursor), crossed := s.crossed + p.crossed,
              baseline := if s.cursor.None? then p.cursor else s.baseline)
  }

  /** The inbox row: the cursor moves, and what was crossed and received is kept, only when every payload was received. */
  class Inbox {
    var cursor: Option<nat>
    var received: seq<nat>
    ghost var crossed: seq<Crossing>

    constructor ()
      ensures cursor == None && received == [] && crossed == []
    {
      cursor, received, crossed := None, [], [];
    }

    /** `imported` counts new and appended conversations; None is a raise, after which the transaction rolls back. */
    method PollInbox(answer: seq<nat>, fetched: nat -> bool, door: nat -> Reception) returns (imported: Option<nat>)
      modifies this
      ensures var p := Poll(old(cursor), answer, fetched);
              if Commits(Payloads(p.crossed), door)
              then imported == Some(Imports(Payloads(p.crossed), door))
                   && cursor == Some(p.cursor) && crossed == old(crossed) + p.crossed
                   && received == old(received) + Payloads(p.crossed)
              else imported == None && cursor == old(cursor) && crossed == old(crossed) && received == old(received)
    {
      hide Poll;
      hide Imports;
      hide Payloads;
      var newCursor, raws := PollMailbox(cursor, answer, fetched);
      ImportsDone(raws, door);
      var count := 0;
      var k := 0;
      while k < |raws|
        invariant 0 <= k <= |raws| && Commits(raws[..k], door)
        invariant cursor == old(cursor) && crossed == old(crossed) && received == old(received)
        invariant count + Imports(raws[k..], door) == Imports(raws[0..], door)
      {
        ImportsNext(raws, k, door);
        match door(raws[k]) {
          case Explodes => return None;
          case Blocked =>
          case Ignored =>
          case Created => count := count + 1;
          case Appended => count := count + 1;
        }
        k := k + 1;
      }
      crossed := crossed + Poll(cursor, answer, fetched).crossed;
      received := received + raws;
      cursor := Some(newCursor);
      return Some(count);
    }

    /** A history of arrivals, deletions and polls, seen from the row: it keeps the cursor and exactly the payloads of what
        the history crossed. */
    method Follow(history: seq<Step>)
      requires cursor == None && received == [] && crossed == []
      modifies this
      ensures cursor == After(history).cursor && crossed == After(history).crossed && received == Payloads(crossed)
    {
      hide Poll;
      hide Commits;
      NoPayloads();
      for k := 0 to |history|
        invariant cursor == After(history[..k]).cursor && crossed == After(history[..k]).crossed
        invariant received == Payloads(crossed)
      {
        assert history[..k + 1][..k] == history[..k];
        var step := history[k];
        if step.PollOnce? {
          PayloadsAdd(crossed, Poll(cursor, step.answer, step.fetched).crossed);
          var _ := PollInbox(step.answer, step.fetched, step.door);
        }
      }
      assert history[..|history|] == history;
      hide Payloads;
    }
  }

  lemma {:induction false} PayloadsAdd(a: seq<Crossing>, b: seq<Crossing>)
    ensures Payloads(a + b) == Payloads(a) + Payloads(b)
  {
    if a == [] {
      assert a + b == b;
    } else {
      assert (a + b)[1..] == a[1..] + b;
      PayloadsAdd(a[1..], b);
    }
  }

  function Imports(raws: seq<nat>, door: nat -> Reception): nat {
    if raws == [] then 0
    else (if door(raws[0]).Created? || door(raws[0]).Appended? then 1 else 0) + Imports(raws[1..], door)
  }

  lemma ImportsNext(raws: seq<nat>, k: nat, door: nat -> Reception)
    requires k < |raws|
    ensures Imports(raws[k..], door) ==
            (if door(raws[k]).Created? || door(raws[k]).Appended? then 1 else 0) + Imports(raws[k + 1..], door)
    ensures raws[..k + 1] == raws[..k] + [raws[k]]
  {
    assert raws[k..][1..] == raws[k + 1..];
  }

  lemma ImportsDone(raws: seq<nat>, door: nat -> Reception)
    ensures Imports(raws[|raws|..], door) == 0 && raws[0..] == raws && raws[..|raws|] == raws
  {
  }

  function After(history: seq<Step>): State
    decreases |history|
  {
    if history == [] then State({}, 0, None, 0, []) else Next(After(history[..|history| - 1]), history[|history| - 1])
  }

  ghost predicate Legal(history: seq<Step>) {
    forall k :: 0 <= k < |history| ==> Enabled(After(history[..k]), history[k])
  }

  // ------------------------------------------------------------------ sorting

  predicate Ascending(s: seq<nat>) { forall i, j :: 0 <= i < j < |s| ==> s[i] < s[j] }

  lemma ConsAscends(x: nat, s: seq<nat>)
    requires Ascending(s) && forall v :: v in s ==> x < v
    ensures Ascending([x] + s)
  {
    forall i, j | 0 <= i < j < |[x] + s| ensures ([x] + s)[i] < ([x] + s)[j] {
      assert s[j - 1] in s;
    }
  }

  lemma {:induction false} InsertKeeps(u: nat, s: seq<nat>)
    requires Ascending(s) && u !in s
    ensures Ascending(Insert(u, s))
    ensures forall v :: v in Insert(u, s) <==> v == u || v in s
  {
    if s == [] {
    } else if u < s[0] {
      ConsAscends(u, s);
    } else {
      InsertKeeps(u, s[1..]);
      assert s == [s[0]] + s[1..];
      ConsAscends(s[0], Insert(u, s[1..]));
    }
  }

  lemma {:induction false} SortSorts(s: seq<nat>)
    requires Distinct(s)
    ensures Ascending(Sort(s)) && forall v :: v in Sort(s) <==> v in s
  {
    if s != [] {
      SortSorts(s[1..]);
      assert s == [s[0]] + s[1..];
      InsertKeeps(s[0], Sort(s[1..]));
    }
  }

  lemma {:induction false} AboveSelects(s: seq<nat>, cursor: nat)
    requires Distinct(s)
    ensures Distinct(Above(s, cursor))
    ensures forall v :: v in Above(s, cursor) <==> v in s && v > cursor
  {
    if s != [] {
      AboveSelects(s[1..], cursor);
      assert s == [s[0]] + s[1..];
      assert s[0] !in s[1..];
    }
  }

  lemma {:induction false} LargestIsLargest(s: seq<nat>)
    ensures forall v :: v in s ==> v <= Largest(s)
    ensures s != [] ==> Largest(s) in s
  {
    if s != [] {
      LargestIsLargest(s[1..]);
      assert s == [s[0]] + s[1..];
    }
  }

  function Uids(crossed: seq<Crossing>): (r: seq<nat>)
    ensures |r| == |crossed| && forall k :: 0 <= k < |r| ==> r[k] == crossed[k].uid
  {
    seq(|crossed|, k requires 0 <= k < |crossed| => crossed[k].uid)
  }

  lemma {:induction false} CrossUids(uids: seq<nat>, fetched: nat -> bool)
    ensures |Cross(uids, fetched)| == |uids|
    ensures forall k :: 0 <= k < |uids| ==> Cross(uids, fetched)[k] == Crossing(uids[k], fetched(uids[k]))
    ensures Uids(Cross(uids, fetched)) == uids
  {
    if uids != [] { CrossUids(uids[1..], fetched); }
  }

  /** What a poll after the baseline crosses: exactly the messages above the cursor, in ascending order, and the cursor
      ends on the last of them. The newest message below the cursor, which the search always returns, is not crossed. */
  lemma PollCrossesTheNew(mail: set<nat>, c: nat, answer: seq<nat>, fetched: nat -> bool)
    requires Answers(mail, Some(c), answer)
    ensures var p := Poll(Some(c), answer, fetched);
            && Ascending(Uids(p.crossed))
            && (forall u :: u in Uids(p.crossed) <==> u in mail && u > c)
            && (forall k :: 0 <= k < |p.crossed| ==> p.crossed[k].payload == fetched(p.crossed[k].uid))
            && p.cursor >= c && (forall u :: u in mail && u > c ==> u <= p.cursor)
            && (p.cursor == c || p.cursor in mail)
  {
    AboveSelects(answer, c);
    var above := Above(answer, c);
    SortSorts(above);
    var uids := Sort(above);
    CrossUids(uids, fetched);
    hide Sort;
    hide Above;
    hide Cross;
    NewUids(mail, c, answer, uids);
  }

  lemma NewUids(mail: set<nat>, c: nat, answer: seq<nat>, uids: seq<nat>)
    requires Answers(mail, Some(c), answer) && Ascending(uids) && forall u :: u in uids <==> u in answer && u > c
    ensures forall u :: u in uids <==> u in mail && u > c
    ensures uids != [] ==> c < uids[|uids| - 1] && uids[|uids| - 1] in mail && forall u :: u in uids ==> u <= uids[|uids| - 1]
  {
    if uids != [] { assert uids[|uids| - 1] in uids; }
  }

  // ------------------------------------------------------------------ exactly once

  /** Everything crossed lies between the baseline and the cursor, once, in order; and everything the mailbox has there was. */
  ghost predicate Sound(s: State) {
    && (forall u :: u in s.mail ==> 0 < u < s.next)
    && (s.cursor.Some? ==> s.baseline <= s.cursor.value && (s.cursor.value == 0 || s.cursor.value < s.next))
    && (s.cursor.None? ==> s.crossed == [])
    && Ascending(Uids(s.crossed))
    && (forall u :: u in Uids(s.crossed) ==> s.cursor.Some? && s.baseline < u <= s.cursor.value)
    && (forall u :: u in s.mail && s.cursor.Some? && s.baseline < u <= s.cursor.value ==> u in Uids(s.crossed))
  }

  lemma ConcatAscends(a: seq<nat>, b: seq<nat>, c: nat)
    requires Ascending(a) && Ascending(b) && (forall u :: u in a ==> u <= c) && forall u :: u in b ==> c < u
    ensures Ascending(a + b)
  {
    forall i, j | 0 <= i < j < |a + b| ensures (a + b)[i] < (a + b)[j] {
      if i < |a| <= j { assert a[i] in a && b[j - |a|] in b; }
    }
  }

  lemma UidsAdd(a: seq<Crossing>, b: seq<Crossing>)
    ensures Uids(a + b) == Uids(a) + Uids(b)
  {
  }

  lemma BaselineSound(s: State, answer: seq<nat>, fetched: nat -> bool)
    requires Sound(s) && s.cursor.None? && Answers(s.mail, None, answer)
    ensures var c := Poll(None, answer, fetched).cursor; Sound(s.(cursor := Some(c), baseline := c))
  {
    LargestIsLargest(answer);
    hide Largest;
    if answer != [] { assert Largest(answer) in s.mail; } else { NoneLargest(); }
  }

  lemma NoneLargest()
    ensures Largest([]) == 0
  {
  }

  lemma PollSound(s: State, answer: seq<nat>, fetched: nat -> bool)
    requires Sound(s) && s.cursor.Some? && Answers(s.mail, s.cursor, answer)
    ensures var p := Poll(s.cursor, answer, fetched);
            Sound(s.(cursor := Some(p.cursor), crossed := s.crossed + p.crossed))
  {
    var c := s.cursor.value;
    var p := Poll(s.cursor, answer, fetched);
    PollCrossesTheNew(s.mail, c, answer, fetched);
    hide Poll;
    hide Answers;
    UidsAdd(s.crossed, p.crossed);
    ConcatAscends(Uids(s.crossed), Uids(p.crossed), c);
    hide Ascending;
  }

  lemma StepSound(s: State, step: Step)
    requires Sound(s) && Enabled(s, step)
    ensures Sound(Next(s, step))
  {
    hide Poll;
    hide Answers;
    match step
    case Arrive(uid) =>
    case Delete(uid) =>
    case PollOnce(answer, fetched, door) =>
      if s.cursor.None? {
        NothingCrossed(answer, fetched);
        BaselineSound(s, answer, fetched);
        assert s.crossed + [] == s.crossed;
      } else {
        PollSound(s, answer, fetched);
      }
      hide Sound;
  }

  lemma NothingCrossed(answer: seq<nat>, fetched: nat -> bool)
    ensures Poll(None, answer, fetched).crossed == []
  {
  }

  lemma {:induction false} HistorySound(history: seq<Step>)
    requires Legal(history)
    ensures Sound(After(history))
    decreases |history|
  {
    hide Sound;
    hide Next;
    hide Enabled;
    if history == [] {
      StartSound();
    } else {
      var before := history[..|history| - 1];
      assert forall k :: 0 <= k < |before| ==> before[..k] == history[..k] && before[k] == history[k];
      HistorySound(before);
      StepSound(After(before), history[|history| - 1]);
    }
  }

  lemma StartSound()
    ensures Sound(State({}, 0, None, 0, []))
  {
  }

  /** Over any history: a message above the baseline and at or below the cursor has been crossed by exactly one committed
      poll, nothing at or below the baseline or above the cursor ever has, and messages are received in uid order. */
  lemma CrossedExactlyOnce(history: seq<Step>)
    requires Legal(history) && After(history).cursor.Some?
    ensures var s := After(history);
            && (forall u :: u in s.mail ==> (u in Uids(s.crossed) <==> s.baseline < u <= s.cursor.value))
            && (forall i, j :: 0 <= i < j < |s.crossed| ==> s.crossed[i].uid < s.crossed[j].uid)
            && (forall k :: 0 <= k < |s.crossed| ==> s.baseline < s.crossed[k].uid <= s.cursor.value)
  {
    HistorySound(history);
    var s := After(history);
    hide After;
    forall k | 0 <= k < |s.crossed| ensures s.baseline < s.crossed[k].uid <= s.cursor.value {
      assert Uids(s.crossed)[k] in Uids(s.crossed);
    }
    forall i, j | 0 <= i < j < |s.crossed| ensures s.crossed[i].uid < s.crossed[j].uid {
      assert Uids(s.crossed)[i] < Uids(s.crossed)[j];
    }
  }

  /** The cursor never moves back, the baseline never moves, and what was crossed is never rewritten; a poll that does not
      commit leaves all three as they were, so its messages are found again. */
  lemma CursorNeverMovesBack(s: State, step: Step)
    requires Sound(s) && Enabled(s, step)
    ensures var t := Next(s, step);
            && (s.cursor.Some? ==> t.cursor.Some? && t.cursor.value >= s.cursor.value && t.baseline == s.baseline)
            && |s.crossed| <= |t.crossed| && t.crossed[..|s.crossed|] == s.crossed
            && (step.PollOnce? && !Commits(Payloads(Poll(s.cursor, step.answer, step.fetched).crossed), step.door) ==> t == s)
  {
    if step.PollOnce? && s.cursor.Some? { PollCrossesTheNew(s.mail, s.cursor.value, step.answer, step.fetched); }
    hide Poll;
    hide Payloads;
  }

  /** A committed poll leaves nothing behind: the cursor is at or past every message in the mailbox. */
  lemma CommittedPollCatchesUp(s: State, step: Step)
    requires Sound(s) && Enabled(s, step) && step.PollOnce?
    requires Commits(Payloads(Poll(s.cursor, step.answer, step.fetched).crossed), step.door)
    ensures var t := Next(s, step); t.cursor.Some? && forall u :: u in t.mail ==> u <= t.cursor.value
  {
    if s.cursor.None? {
      LargestIsLargest(step.answer);
    } else {
      PollCrossesTheNew(s.mail, s.cursor.value, step.answer, step.fetched);
    }
    hide Payloads;
    hide Largest;
    hide Sort;
    hide Cross;
  }

  lemma {:induction false} PayloadsOf(crossed: seq<Crossing>, u: nat)
    ensures u in Payloads(crossed) <==> Crossing(u, true) in crossed
  {
    if crossed != [] {
      PayloadsOf(crossed[1..], u);
      assert crossed == [crossed[0]] + crossed[1..];
    }
  }

  /** One payload whose receipt raises undoes the whole poll; a blocked contact, or a message that is ignored, does not: then the
      cursor passes everything there is. */
  lemma PollCommitsExactly(s: State, step: Step)
    requires Sound(s) && Enabled(s, step) && step.PollOnce? && s.cursor.Some?
    ensures var t := Next(s, step);
            if exists u :: u in s.mail && u > s.cursor.value && step.fetched(u) && step.door(u).Explodes? then t == s
            else t.cursor.Some? && forall u :: u in s.mail ==> u <= t.cursor.value
  {
    var p := Poll(s.cursor, step.answer, step.fetched);
    PollCrossesTheNew(s.mail, s.cursor.value, step.answer, step.fetched);
    var raws := Payloads(p.crossed);
    hide Sound;
    hide Poll;
    hide Answers;
    forall u: nat ensures u in raws <==> u in s.mail && u > s.cursor.value && step.fetched(u) {
      PayloadsOf(p.crossed, u);
      UidCrossed(p.crossed, u);
      if u in Uids(p.crossed) {
        var b :| Crossing(u, b) in p.crossed;
        var k :| 0 <= k < |p.crossed| && p.crossed[k] == Crossing(u, b);
        assert p.crossed[k].payload == step.fetched(p.crossed[k].uid);
      }
      if Crossing(u, true) in p.crossed {
        var k :| 0 <= k < |p.crossed| && p.crossed[k] == Crossing(u, true);
        assert p.crossed[k].payload == step.fetched(p.crossed[k].uid);
      }
    }
    hide Payloads;
    if u :| u in s.mail && u > s.cursor.value && step.fetched(u) && step.door(u).Explodes? {
      var k :| 0 <= k < |raws| && raws[k] == u;
      assert !Commits(raws, step.door);
    }
  }

  /** The messages among these that open or extend a conversation. */
  function Admitted(raws: seq<nat>, door: nat -> Reception): set<nat> {
    set u | u in raws && (door(u).Created? || door(u).Appended?)
  }

  /** What a poll reports as imported is how many of its messages did so. */
  lemma {:induction false} ImportsAdmitted(raws: seq<nat>, door: nat -> Reception)
    requires Distinct(raws)
    ensures Imports(raws, door) == |Admitted(raws, door)|
  {
    if raws != [] {
      var u, rest := raws[0], raws[1..];
      assert raws == [u] + rest;
      ImportsAdmitted(rest, door);
      assert u !in rest;
      assert Admitted(raws, door) == Admitted(rest, door) + (if door(u).Created? || door(u).Appended? then {u} else {});
    }
  }

  // ------------------------------------------------------------------ received exactly once

  function Occurrences(s: seq<nat>, u: nat): nat {
    if s == [] then 0 else (if s[0] == u then 1 else 0) + Occurrences(s[1..], u)
  }

  /** Step k is a committed poll after the baseline that finds message u above the cursor. */
  ghost predicate Crosses(history: seq<Step>, k: nat, u: nat)
    requires k < |history|
  {
    var s := After(history[..k]);
    var step := history[k];
    && step.PollOnce? && s.cursor.Some? && u in s.mail && u > s.cursor.value
    && Commits(Payloads(Poll(s.cursor, step.answer, step.fetched).crossed), step.door)
  }

  /** The same, and its fetch carries a payload or not. */
  ghost predicate CrossesWith(history: seq<Step>, k: nat, u: nat, payload: bool)
    requires k < |history|
  {
    Crosses(history, k, u) && history[k].fetched(u) == payload
  }

  /** In ascending crossings a message is received as often as its crossing carried a payload: once or never. */
  lemma {:induction false} AscendingOccurs(crossed: seq<Crossing>, u: nat)
    requires Ascending(Uids(crossed))
    ensures Occurrences(Payloads(crossed), u) == if Crossing(u, true) in crossed then 1 else 0
  {
    if crossed != [] {
      var rest := crossed[1..];
      assert crossed == [crossed[0]] + rest && Uids(rest) == Uids(crossed)[1..];
      AscendingOccurs(rest, u);
      if crossed[0].uid == u {
        forall k | 0 <= k < |rest| ensures rest[k].uid != u { assert Uids(crossed)[0] < Uids(crossed)[k + 1]; }
      }
      if crossed[0].payload {
        assert Payloads(crossed) == [crossed[0].uid] + Payloads(rest);
        assert ([crossed[0].uid] + Payloads(rest))[1..] == Payloads(rest);
      } else {
        assert Payloads(crossed) == Payloads(rest);
      }
    }
  }

  lemma UidCrossed(crossed: seq<Crossing>, u: nat)
    ensures u in Uids(crossed) <==> exists b :: Crossing(u, b) in crossed
  {
    if u in Uids(crossed) {
      var k :| 0 <= k < |crossed| && Uids(crossed)[k] == u;
      assert Crossing(u, crossed[k].payload) in crossed;
    }
    if b :| Crossing(u, b) in crossed {
      var k :| 0 <= k < |crossed| && crossed[k] == Crossing(u, b);
      assert Uids(crossed)[k] == u;
    }
  }

  /** What one step adds to the crossings of message u. */
  lemma StepCrosses(history: seq<Step>, n: nat, u: nat, b: bool)
    requires n < |history| && Sound(After(history[..n])) && Enabled(After(history[..n]), history[n])
    ensures var s := After(history[..n]);
            Crossing(u, b) in Next(s, history[n]).crossed <==>
            Crossing(u, b) in s.crossed || (Crosses(history, n, u) && history[n].fetched(u) == b)
  {
    var s := After(history[..n]);
    var step := history[n];
    hide Sound;
    hide Commits;
    hide After;
    if step.PollOnce? {
      if s.cursor.None? {
        NothingCrossed(step.answer, step.fetched);
      } else {
        var p := Poll(s.cursor, step.answer, step.fetched);
        PollCrossesTheNew(s.mail, s.cursor.value, step.answer, step.fetched);
        UidCrossed(p.crossed, u);
        hide Poll;
        if Crossing(u, b) in p.crossed {
          var k :| 0 <= k < |p.crossed| && p.crossed[k] == Crossing(u, b);
          assert p.crossed[k].payload == step.fetched(p.crossed[k].uid);
        }
        if u in Uids(p.crossed) {
          var b' :| Crossing(u, b') in p.crossed;
          var k :| 0 <= k < |p.crossed| && p.crossed[k] == Crossing(u, b');
          assert p.crossed[k].payload == step.fetched(p.crossed[k].uid);
        }
      }
    }
    hide Answers;
  }

  lemma LegalFront(history: seq<Step>, n: nat)
    requires Legal(history) && n <= |history|
    ensures Legal(history[..n])
  {
    hide Enabled;
    hide After;
    assert forall k :: 0 <= k < n ==> history[..n][..k] == history[..k] && history[..n][k] == history[k];
  }

  lemma CrossesInFront(history: seq<Step>, n: nat, k: nat, u: nat)
    requires k < n <= |history|
    ensures Crosses(history[..n], k, u) == Crosses(history, k, u)
  {
    assert history[..n][..k] == history[..k] && history[..n][k] == history[k];
  }

  /** A message has been crossed with or without payload exactly when some poll of the history crossed it so. */
  lemma {:induction false} CrossedBySomePoll(history: seq<Step>, u: nat, b: bool)
    requires Legal(history)
    ensures Crossing(u, b) in After(history).crossed <==> exists k :: 0 <= k < |history| && CrossesWith(history, k, u, b)
    decreases |history|
  {
    hide Next;
    hide Sound;
    if history != [] {
      var n := |history| - 1;
      LegalFront(history, n);
      CrossedBySomePoll(history[..n], u, b);
      HistorySound(history[..n]);
      assert Enabled(After(history[..n]), history[n]);
      StepCrosses(history, n, u, b);
      hide Enabled;
      forall k | 0 <= k < n ensures CrossesWith(history[..n], k, u, b) == CrossesWith(history, k, u, b) {
        CrossesInFront(history, n, k, u);
      }
      assert CrossesWith(history, n, u, b) <==> Crosses(history, n, u) && history[n].fetched(u) == b;
      hide CrossesWith;
      if k :| 0 <= k < n && CrossesWith(history[..n], k, u, b) { assert CrossesWith(history, k, u, b); }
      if k :| 0 <= k < |history| && CrossesWith(history, k, u, b) {
        if k < n { assert CrossesWith(history[..n], k, u, b); }
      }
    }
    hide Crosses;
  }

  /** Exactly once, over any history. A message is received by at most one committed poll. A message of the mailbox that lies
      above the baseline and at or below the cursor was crossed by one, and was received, once, if and only if its fetch in
      that poll carried a payload. Outside those bounds nothing is received. */
  lemma ReceivedExactlyOnce(history: seq<Step>, u: nat)
    requires Legal(history)
    ensures var s := After(history);
            && Occurrences(Payloads(s.crossed), u) ==
               (if exists k :: 0 <= k < |history| && CrossesWith(history, k, u, true) then 1 else 0)
            && (u in s.mail && s.cursor.Some? && s.baseline < u <= s.cursor.value ==>
                  exists k :: 0 <= k < |history| && Crosses(history, k, u))
            && (s.cursor.None? || u <= s.baseline || u > s.cursor.value ==> Occurrences(Payloads(s.crossed), u) == 0)
  {
    var s := After(history);
    HistorySound(history);
    CrossedBySomePoll(history, u, true);
    CrossedBySomePoll(history, u, false);
    AscendingOccurs(s.crossed, u);
    UidCrossed(s.crossed, u);
    hide After;
    hide Crosses;
    hide Payloads;
    hide Occurrences;
    if u in s.mail && s.cursor.Some? && s.baseline < u <= s.cursor.value {
      var b :| Crossing(u, b) in s.crossed;
      assert Crossing(u, true) in s.crossed || Crossing(u, false) in s.crossed;
    }
  }

  /** The poll that crosses a message is the only one that ever does. */
  lemma CrossedByOnePoll(history: seq<Step>, j: nat, k: nat, u: nat)
    requires Legal(history) && j < k < |history| && Crosses(history, j, u)
    ensures !Crosses(history, k, u)
  {
    hide Crosses;
    CursorPassed(history, j, k, u);
    NotAbove(history, k, u);
  }

  lemma NotAbove(history: seq<Step>, k: nat, u: nat)
    requires k < |history| && After(history[..k]).cursor.Some? && u <= After(history[..k]).cursor.value
    ensures !Crosses(history, k, u)
  {
    hide After;
  }

  lemma {:induction false} CursorPassed(history: seq<Step>, j: nat, m: nat, u: nat)
    requires Legal(history) && j < m <= |history| && Crosses(history, j, u)
    ensures After(history[..m]).cursor.Some? && u <= After(history[..m]).cursor.value
    decreases m - j
  {
    hide Sound;
    hide Next;
    hide Enabled;
    var before := history[..m - 1];
    assert history[..m][..m - 1] == before && history[..m][m - 1] == history[m - 1];
    LegalFront(history, m - 1);
    HistorySound(before);
    assert Enabled(After(before), history[m - 1]);
    if m == j + 1 {
      CommittedPollCatchesUp(After(before), history[j]);
      MailStays(After(before), history[j]);
    } else {
      CursorPassed(history, j, m - 1, u);
      CursorNeverMovesBack(After(before), history[m - 1]);
    }
    hide After;
    hide Poll;
    hide Payloads;
    hide Commits;
  }

  lemma MailStays(s: State, step: Step)
    requires step.PollOnce?
    ensures Next(s, step).mail == s.mail
  {
    hide Poll;
  }

  /** A message whose fetch carries no payload is lost: the poll passes it, and the next one does not ask for it again. */
  lemma UnreadPayloadIsLost(door: nat -> Reception)
    requires door(7) == Created
    ensures var first := [PollOnce([], u => true, door), Arrive(7), PollOnce([7], u => false, door)];
            var s := After(first + [PollOnce([7], u => true, door)]);
            Legal(first + [PollOnce([7], u => true, door)])
            && 7 in s.mail && s.cursor == Some(7) && Payloads(s.crossed) == []
  {
    var p0, p1, p2, p3 := PollOnce([], u => true, door), Arrive(7), PollOnce([7], u => false, door), PollOnce([7], u => true, door);
    var history := [p0, p1, p2] + [p3];
    assert history[..0] == [] && history[..1] == [p0] && history[..2] == [p0, p1] && history[..3] == [p0, p1, p2];
    assert history[..1][..0] == [] && history[..2][..1] == [p0] && history[..3][..2] == [p0, p1] && history[..4] == history;
    var s1 := State({}, 0, Some(0), 0, []);
    var s2 := State({7}, 8, Some(0), 0, []);
    var s3 := State({7}, 8, Some(7), 0, [Crossing(7, false)]);
    assert After([p0]) == s1;
    assert After([p0, p1]) == s2;
    LostPoll(p2, s2, s3);
    assert After([p0, p1, p2]) == s3;
    NextPoll(p3, s3);
    assert After(history) == s3;
    hide Next;
    hide After;
  }

  lemma LostPoll(step: Step, s: State, t: State)
    requires step.PollOnce? && step.answer == [7] && !step.fetched(7)
    requires s == State({7}, 8, Some(0), 0, []) && t == State({7}, 8, Some(7), 0, [Crossing(7, false)])
    ensures Next(s, step) == t && Answers(s.mail, s.cursor, step.answer)
  {
    assert [7][1..] == [];
    assert Above([7], 0) == [7] && Sort([7]) == [7];
    assert Cross([7], step.fetched) == [Crossing(7, false)];
    assert Payloads([Crossing(7, false)]) == [];
  }

  lemma NextPoll(step: Step, s: State)
    requires step.PollOnce? && step.answer == [7] && s == State({7}, 8, Some(7), 0, [Crossing(7, false)])
    ensures Next(s, step) == s && Answers(s.mail, s.cursor, step.answer) && Payloads(s.crossed) == []
  {
    assert [7][1..] == [];
    assert Above([7], 7) == [] && Sort([]) == [] && Cross([], step.fetched) == [];
    assert s.crossed + [] == s.crossed;
  }
}
