/**
 The boot-time sweep over the task table (src/scheduler/index.ts, recoverStuckTasks)
 and what it does to a task that crashes the process again and again.
 */
module CrashRecovery {
  import opened Wrappers
  import opened TaskQueue

  const PATTERN := "[crash recovery"
  const TAIL := ": was running at shutdown]"
  const STAMP := PATTERN + TAIL
  const SEPARATOR := " | "
  const JOINED := SEPARATOR + STAMP
  const ABANDONED := " [abandoned: too many crash recoveries — kick manually]"
  const LIMIT := 1024
  const DAY := 86400

  // ------------------------------------------------------------ SQL strings

  // replace(s, PATTERN, ''): one left-to-right pass.
  function Removed(s: string): string {
    if |s| < |PATTERN| then s
    else if s[..|PATTERN|] == PATTERN then Removed(s[|PATTERN|..])
    else [s[0]] + Removed(s[1..])
  }

  // (length(s) - length(replace(s, p, ''))) / length(p), as the sweep computes it.
  function StampCount(s: string): int {
    (|s| - |Removed(s)|) / |PATTERN|
  }

  // substr(s, 1, 1024)
  function Clipped(s: string): string {
    if |s| <= LIMIT then s else s[..LIMIT]
  }

  function Restamped(e: Option<string>): string {
    match e
    case None => STAMP
    case Some(s) => Clipped(s + JOINED)
  }

  // ------------------------------------------- what the counter really counts

  predicate StampAt(s: string, i: nat) {
    i + |PATTERN| <= |s| && s[i..i + |PATTERN|] == PATTERN
  }

  // Number of positions at which the pattern occurs.
  function Occurrences(s: string): nat {
    if s == [] then 0 else (if StampAt(s, 0) then 1 else 0) + Occurrences(s[1..])
  }

  lemma StampStartsWithBracket(s: string, i: nat)
    ensures StampAt(s, i) ==> i < |s| && s[i] == '['
  {
    if StampAt(s, i) {
      assert s[i] == s[i..i + |PATTERN|][0];
    }
  }

  lemma PatternShape()
    ensures |PATTERN| == 15 && |TAIL| == 26
    ensures PATTERN[0] == '[' && PATTERN[14] == 'y'
    ensures forall i :: 1 <= i < |PATTERN| ==> PATTERN[i] != '['
    ensures forall i :: 0 <= i < |PATTERN| ==> PATTERN[i] != '|'
    ensures '[' !in TAIL
    ensures |SEPARATOR| == 3 && SEPARATOR[0] == ' ' && SEPARATOR[1] == '|' && SEPARATOR[2] == ' '
  {
  }

  // Nothing that starts inside an occurrence is another one.
  lemma {:induction false} SkipsOneStamp(s: string, n: nat)
    requires StampAt(s, 0)
    requires 1 <= n <= |PATTERN|
    ensures Occurrences(s[1..]) == Occurrences(s[n..])
  {
    if n > 1 {
      SkipsOneStamp(s, n - 1);
      var t := s[n - 1..];
      assert t[1..] == s[n..];
      assert t[0] == s[..|PATTERN|][n - 1];
      assert PATTERN[n - 1] != '[';
      PatternShape();
      StampStartsWithBracket(t, 0);
    }
  }

  lemma {:induction false} ShortHasNone(s: string)
    requires |s| < |PATTERN|
    ensures Occurrences(s) == 0
  {
    if s != [] { ShortHasNone(s[1..]); }
  }

  // The arithmetic on lengths is the number of occurrences.
  lemma {:induction false} RemovalCounts(s: string)
    ensures |s| - |Removed(s)| == |PATTERN| * Occurrences(s)
  {
    if |s| < |PATTERN| {
      ShortHasNone(s);
    } else if s[..|PATTERN|] == PATTERN {
      RemovalCounts(s[|PATTERN|..]);
      assert s[0..0 + |PATTERN|] == s[..|PATTERN|];
      SkipsOneStamp(s, |PATTERN|);
    } else {
      RemovalCounts(s[1..]);
      assert s[0..0 + |PATTERN|] == s[..|PATTERN|];
    }
  }

  lemma StampCountIsOccurrences(s: string)
    ensures StampCount(s) == Occurrences(s)
  {
    RemovalCounts(s);
  }

  lemma {:induction false} NoBracketNoStamp(s: string)
    requires '[' !in s
    ensures Occurrences(s) == 0
  {
    if s != [] {
      NoBracketNoStamp(s[1..]);
      StampStartsWithBracket(s, 0);
    }
  }

  // A piece of the stamp holds the pattern exactly when it reaches its end.
  lemma StampPrefix(n: nat)
    requires n <= |STAMP|
    ensures Occurrences(STAMP[..n]) == if n >= |PATTERN| then 1 else 0
  {
    if n > 0 {
      PatternShape();
      var t := STAMP[..n];
      assert forall i :: 1 <= i < n ==> t[i] == if i < |PATTERN| then PATTERN[i] else TAIL[i - |PATTERN|];
      NoBracketNoStamp(t[1..]);
      if n >= |PATTERN| {
        assert t[0..0 + |PATTERN|] == STAMP[..|PATTERN|] == PATTERN;
      }
    }
  }

  lemma JoinPrefix(n: nat)
    requires n <= |JOINED|
    ensures Occurrences(JOINED[..n]) == if n >= 3 + |PATTERN| then 1 else 0
  {
    PatternShape();
    var t := JOINED[..n];
    if n < 3 {
      assert forall i :: 0 <= i < n ==> t[i] == SEPARATOR[i];
      NoBracketNoStamp(t);
    } else {
      assert t[0] == ' ' && t[1] == '|' && t[2] == ' ';
      assert t[1..][1..] == t[2..] && t[2..][1..] == t[3..];
      StampStartsWithBracket(t, 0);
      StampStartsWithBracket(t[1..], 0);
      StampStartsWithBracket(t[2..], 0);
      assert Occurrences(t[1..]) == Occurrences(t[2..]) == Occurrences(t[3..]);
      assert t[3..] == STAMP[..n - 3];
      StampPrefix(n - 3);
    }
  }

  // No occurrence forms across the join: the separator's second character is not in the
  // pattern, and the pattern does not end in its first.
  lemma {:induction false} NothingForms(s: string, n: nat)
    requires n <= |JOINED|
    ensures Occurrences(s + JOINED[..n]) == Occurrences(s) + if n >= 3 + |PATTERN| then 1 else 0
  {
    var tail := JOINED[..n];
    if s == [] {
      assert s + tail == tail;
      JoinPrefix(n);
    } else {
      NothingForms(s[1..], n);
      StraddleImpossible(s, n);
      PrefixOccurrences(s, tail);
    }
  }

  lemma PrefixOccurrences(s: string, tail: string)
    requires s != [] && StampAt(s + tail, 0) == StampAt(s, 0)
    ensures Occurrences(s + tail) - Occurrences(s) == Occurrences(s[1..] + tail) - Occurrences(s[1..])
  {
    OccurrencesSplit(s + tail);
    OccurrencesSplit(s);
    assert (s + tail)[1..] == s[1..] + tail;
  }

  lemma OccurrencesSplit(t: string)
    requires t != []
    ensures Occurrences(t) == (if StampAt(t, 0) then 1 else 0) + Occurrences(t[1..])
  {
  }

  lemma StraddleImpossible(s: string, n: nat)
    requires s != [] && n <= |JOINED|
    ensures StampAt(s + JOINED[..n], 0) == StampAt(s, 0)
  {
    var t := s + JOINED[..n];
    if |s| >= |PATTERN| {
      assert t[0..0 + |PATTERN|] == s[0..0 + |PATTERN|];
    } else if |t| >= |PATTERN| {
      PatternShape();
      var k := if |s| + 1 < |PATTERN| then |s| + 1 else |s|;
      assert t[k] == SEPARATOR[k - |s|];
      assert t[0..0 + |PATTERN|][k] == t[k];
    }
  }

  lemma {:induction false} ClippingOnlyLoses(s: string, n: nat)
    requires n <= |s|
    ensures Occurrences(s[..n]) <= Occurrences(s)
  {
    if n > 0 {
      ClippingOnlyLoses(s[1..], n - 1);
      assert s[..n][1..] == s[1..][..n - 1];
      if StampAt(s[..n], 0) {
        assert s[..n][0..0 + |PATTERN|] == s[0..0 + |PATTERN|];
      }
    }
  }

  lemma {:induction false} AppendingKeeps(s: string, t: string)
    ensures Occurrences(s + t) >= Occurrences(s)
  {
    ClippingOnlyLoses(s + t, |s|);
    assert (s + t)[..|s|] == s;
  }

  // ------------------------------------------------------------- the sweep

  predicate TooManyStamps(t: Task) {
    t.lastError.Some? && StampCount(t.lastError.value) >= 3
  }

  // One row under the two UPDATE statements, in their order.
  function SweptRow(t: Task, now: int): Task {
    if t.status != Running then t
    else if TooManyStamps(t) then
      t.(status := Done, nextDue := Some(now + DAY), lastError := Some(t.lastError.value + ABANDONED))
    else
      t.(status := Pending, priority := High, nextDue := None, lastError := Some(Restamped(t.lastError)))
  }

  function Swept(tasks: Table, now: int): Table {
    map id | id in tasks :: SweptRow(tasks[id], now)
  }

  lemma NothingRunsAfterASweep(tasks: Table, now: int)
    ensures forall id :: id in Swept(tasks, now) ==> Swept(tasks, now)[id].status != Running
  {
  }

  // The sweep as it runs on the shared table; `abandoned` and `reset` are its row counts.
  method RecoverStuckTasks(db: TaskTable, now: int) returns (abandoned: nat, reset: nat)
    modifies db
    ensures db.tasks == Swept(old(db.tasks), now)
    ensures abandoned == |set id | id in old(db.tasks) && old(db.tasks)[id].status == Running
            && TooManyStamps(old(db.tasks)[id])|
    ensures reset == |set id | id in old(db.tasks) && old(db.tasks)[id].status == Running
            && !TooManyStamps(old(db.tasks)[id])|
  {
    var doomed := set id | id in db.tasks && db.tasks[id].status == Running && TooManyStamps(db.tasks[id]);
    db.tasks := map id | id in db.tasks ::
      if id in doomed
      then db.tasks[id].(status := Done, nextDue := Some(now + DAY),
                         lastError := Some(db.tasks[id].lastError.value + ABANDONED))
      else db.tasks[id];
    abandoned := |doomed|;
    var stuck := set id | id in db.tasks && db.tasks[id].status == Running;
    assert stuck == set id | id in old(db.tasks) && old(db.tasks)[id].status == Running
           && !TooManyStamps(old(db.tasks)[id]);
    db.tasks := map id | id in db.tasks ::
      if id in stuck
      then db.tasks[id].(status := Pending, priority := High, nextDue := None,
                         lastError := Some(Restamped(db.tasks[id].lastError)))
      else db.tasks[id];
    reset := |stuck|;
  }

  // -------------------------------------------------------- runs with crashes

  // What can happen to the table between two boots without the task finishing.
  datatype Event =
    | Enqueue(id: nat, priority: Priority, due: Option<int>)
    | Dequeue(id: nat)
    | RequeuePaused(id: nat)
    | Boot(now: int)

  function Step(tasks: Table, e: Event): Table {
    match e
    case Enqueue(id, priority, due) => Enqueued(tasks, id, priority, due)
    case Dequeue(id) => if id in tasks then tasks[id := tasks[id].(status := Running)] else tasks
    case RequeuePaused(id) => Requeued(tasks, id)
    case Boot(now) => Swept(tasks, now)
  }

  predicate CrashesTask(tasks: Table, e: Event, id: nat) {
    e.Boot? && id in tasks && tasks[id].status == Running
  }

  // Boots that found the task running.
  function Crashes(tasks: Table, es: seq<Event>, id: nat): nat {
    if es == [] then 0
    else (if CrashesTask(tasks, es[0], id) then 1 else 0) + Crashes(Step(tasks, es[0]), es[1..], id)
  }

  // Those of them that put it back into the queue instead of abandoning it.
  function Resets(tasks: Table, es: seq<Event>, id: nat): nat {
    if es == [] then 0
    else (if CrashesTask(tasks, es[0], id) && Step(tasks, es[0])[id].status == Pending then 1 else 0)
         + Resets(Step(tasks, es[0]), es[1..], id)
  }

  // How many resets a text of this length with so many stamps has left; None is "no end to
  // them".  The last stamp that is needed has to fit below the clipping length.
  function LeftWith(length: nat, stamps: nat): Option<nat> {
    if stamps >= 3 then Some(0)
    else if length + (2 - stamps) * |JOINED| + |SEPARATOR| + |PATTERN| <= LIMIT then Some(3 - stamps)
    else None
  }

  function ResetsLeft(e: Option<string>): Option<nat> {
    match e
    case None => Some(3)
    case Some(s) => LeftWith(|s|, Occurrences(s))
  }

  // What clipping leaves of a stamp appended to `s`.
  lemma RestampedText(s: string)
    ensures |Restamped(Some(s))| == Min(|s| + |JOINED|, LIMIT)
    ensures |s| + |SEPARATOR| + |PATTERN| <= LIMIT ==> Occurrences(Restamped(Some(s))) == Occurrences(s) + 1
    ensures |s| + |SEPARATOR| + |PATTERN| > LIMIT ==> Occurrences(Restamped(Some(s))) <= Occurrences(s)
  {
    if |s| <= LIMIT {
      var n := Min(|JOINED|, LIMIT - |s|);
      NothingForms(s, n);
      assert Restamped(Some(s)) == s + JOINED[..n];
    } else {
      assert Restamped(Some(s)) == s[..LIMIT];
      ClippingOnlyLoses(s, LIMIT);
    }
  }

  lemma OneLess(length: nat, stamps: nat, longer: nat, more: nat)
    requires stamps < 3 && longer == Min(length + |JOINED|, LIMIT)
    requires if length + |SEPARATOR| + |PATTERN| <= LIMIT then more == stamps + 1 else more <= stamps
    ensures var left, next := LeftWith(length, stamps), LeftWith(longer, more);
            if left.None? then next.None? else left.value > 0 && next == Some(left.value - 1)
  {
    PatternShape();
    assert |JOINED| == 44;
  }

  lemma StampedAgain(s: string)
    requires Occurrences(s) < 3
    ensures var left, next := ResetsLeft(Some(s)), ResetsLeft(Some(Restamped(Some(s))));
            if left.None? then next.None? else left.value > 0 && next == Some(left.value - 1)
  {
    var r := Restamped(Some(s));
    RestampedText(s);
    OneLess(|s|, Occurrences(s), |r|, Occurrences(r));
  }

  lemma FirstStamp()
    ensures Occurrences(STAMP) == 1 && |STAMP| == 41
  {
    PatternShape();
    StampPrefix(|STAMP|);
    assert STAMP[..|STAMP|] == STAMP;
  }

  lemma StampingUsesOneUp(e: Option<string>)
    requires e.None? || Occurrences(e.value) < 3
    ensures ResetsLeft(e).None? ==> ResetsLeft(Some(Restamped(e))).None?
    ensures ResetsLeft(e).Some? ==>
              ResetsLeft(e).value > 0 && ResetsLeft(Some(Restamped(e))) == Some(ResetsLeft(e).value - 1)
  {
    if e.None? {
      FirstStamp();
    } else {
      StampedAgain(e.value);
    }
  }

  // Every crash either uses one reset up or, when none is left, abandons the task.
  lemma {:induction false} CrashLoop(tasks: Table, es: seq<Event>, id: nat)
    requires id in tasks
    ensures var left := ResetsLeft(tasks[id].lastError);
            Resets(tasks, es, id) ==
            if left.None? then Crashes(tasks, es, id) else Min(left.value, Crashes(tasks, es, id))
  {
    if es != [] {
      var next := Step(tasks, es[0]);
      CrashLoop(next, es[1..], id);
      if CrashesTask(tasks, es[0], id) {
        var e := tasks[id].lastError;
        if e.Some? {
          StampCountIsOccurrences(e.value);
          AppendingKeeps(e.value, ABANDONED);
        }
        if !TooManyStamps(tasks[id]) {
          StampingUsesOneUp(e);
        }
      }
    }
  }

  // The promise of the sweep: an unstamped task is reset by its first three crashes and
  // abandoned by every later one, exactly when its error text has at most 918 characters.
  // A longer text leaves no room for the third stamp and the task is reset for ever.
  lemma AbandonedAfterThreeResets(tasks: Table, es: seq<Event>, id: nat)
    requires id in tasks
    requires tasks[id].lastError.Some? ==> Occurrences(tasks[id].lastError.value) == 0
    ensures tasks[id].lastError.None? || |tasks[id].lastError.value| <= 918
            <==> ResetsLeft(tasks[id].lastError) == Some(3)
    ensures tasks[id].lastError.None? || |tasks[id].lastError.value| <= 918
            ==> Resets(tasks, es, id) == Min(3, Crashes(tasks, es, id))
    ensures tasks[id].lastError.Some? && |tasks[id].lastError.value| > 918
            ==> Resets(tasks, es, id) == Crashes(tasks, es, id)
  {
    PatternShape();
    CrashLoop(tasks, es, id);
  }
}
