/**
 The process-local lane registry. Every critical section of the source runs without suspending
 except for the condition wait, so each stretch between two suspension points is one atomic step:
 registering, a woken task re-checking its turn, and leaving (which may discard the lane record).
 */
module Lanes {
  import opened Common

  type TaskId = int
  type LaneId = nat

  /** Waiting tokens are ordered by decision time, then by registration order. */
  datatype Token = Token(at: int, sequence: nat)

  predicate Before(a: Token, b: Token) {
    a.at < b.at || (a.at == b.at && a.sequence <= b.sequence)
  }

  datatype Lane = Lane(active: bool, waiters: seq<Token>)

  /** Where a task is inside `hold`: about to check its turn, asleep on the condition, or in the body. */
  datatype Task =
    | Checking(key: string, lane: LaneId, token: Token)
    | Sleeping(key: string, lane: LaneId, token: Token)
    | Holding(key: string, lane: LaneId)

  /** `lanes` is the dictionary; `objects` are all lane records ever created, discarded ones included. */
  datatype State = State(
    lanes: map<string, LaneId>, objects: seq<Lane>, sequence: nat, tasks: map<TaskId, Task>)

  const Empty := State(map[], [], 0, map[])

  // ---- Steps ---------------------------------------------------------------------------

  function Woken(t: Task, lane: LaneId): Task {
    if t.Sleeping? && t.lane == lane then Checking(t.key, t.lane, t.token) else t
  }

  /** `notify_all` on one lane's condition. */
  function NotifyAll(tasks: map<TaskId, Task>, lane: LaneId): map<TaskId, Task> {
    map t | t in tasks :: Woken(tasks[t], lane)
  }

  function Least(ts: seq<Token>): (m: Token)
    requires ts != []
    ensures m in ts && forall i :: 0 <= i < |ts| ==> Before(m, ts[i])
  {
    if |ts| == 1 then ts[0]
    else
      var m := Least(ts[1..]);
      if Before(ts[0], m) then ts[0] else m
  }

  /** List removal: the first occurrence goes. */
  function LessToken(ts: seq<Token>, x: Token): seq<Token> {
    if ts == [] then [] else if ts[0] == x then ts[1..] else [ts[0]] + LessToken(ts[1..], x)
  }

  /** The state with a lane record for the key, reusing the one in the dictionary if there is one. */
  function Opened(s: State, key: string): State {
    if key in s.lanes then s
    else s.(lanes := s.lanes[key := |s.objects|], objects := s.objects + [Lane(false, [])])
  }

  predicate InRange(s: State) {
    && (forall k :: k in s.lanes ==> s.lanes[k] < |s.objects|)
    && (forall t :: t in s.tasks ==> s.tasks[t].lane < |s.objects|)
  }

  function Register(s: State, t: TaskId, key: string, at: int): State
    requires InRange(s) && t !in s.tasks
  {
    var o := Opened(s, key);
    var lane, token := o.lanes[key], Token(at, s.sequence);
    o.(objects := o.objects[lane := o.objects[lane].(waiters := o.objects[lane].waiters + [token])],
       sequence := s.sequence + 1,
       tasks := NotifyAll(s.tasks, lane)[t := Checking(key, lane, token)])
  }

  /** The predicate of the condition wait. */
  predicate MyTurn(s: State, t: TaskId)
    requires InRange(s) && t in s.tasks && s.tasks[t].Checking?
  {
    var lane := s.objects[s.tasks[t].lane];
    !lane.active && lane.waiters != [] && s.tasks[t].token == Least(lane.waiters)
  }

  function Check(s: State, t: TaskId): State
    requires InRange(s) && t in s.tasks && s.tasks[t].Checking?
  {
    var Checking(key, lane, token) := s.tasks[t];
    if MyTurn(s, t) then
      s.(objects := s.objects[lane := Lane(true, LessToken(s.objects[lane].waiters, token))],
         tasks := s.tasks[t := Holding(key, lane)])
    else
      s.(tasks := s.tasks[t := Sleeping(key, lane, token)])
  }

  function Release(s: State, t: TaskId): State
    requires InRange(s) && t in s.tasks && s.tasks[t].Holding?
  {
    var Holding(key, lane) := s.tasks[t];
    s.(objects := s.objects[lane := s.objects[lane].(active := false)],
       tasks := NotifyAll(s.tasks, lane) - {t},
       lanes := if s.objects[lane].waiters == [] then s.lanes - {key} else s.lanes)
  }

  datatype Event = RegisterEvent(task: TaskId, key: string, at: int) | CheckEvent(task: TaskId) | ReleaseEvent(task: TaskId)

  predicate Enabled(s: State, e: Event) {
    match e
    case RegisterEvent(t, _, _) => t !in s.tasks
    case CheckEvent(t) => t in s.tasks && s.tasks[t].Checking?
    case ReleaseEvent(t) => t in s.tasks && s.tasks[t].Holding?
  }

  function Step(s: State, e: Event): State
    requires InRange(s) && Enabled(s, e)
  {
    match e
    case RegisterEvent(t, key, at) => Register(s, t, key, at)
    case CheckEvent(t) => Check(s, t)
    case ReleaseEvent(t) => Release(s, t)
  }

  // ---- The registry --------------------------------------------------------------------

  class AiExperimentLaneRegistry {
    var lanes: map<string, LaneId>
    var objects: seq<Lane>
    var sequence: nat
    var tasks: map<TaskId, Task>

    function Contents(): State
      reads this
    {
      State(lanes, objects, sequence, tasks)
    }

    constructor ()
      ensures Contents() == Empty
    {
      lanes, objects, sequence, tasks := map[], [], 0, map[];
    }

    method NotifyAllOn(lane: LaneId)
      modifies this`tasks
      ensures tasks == NotifyAll(old(tasks), lane)
    {
      var left := tasks.Keys;
      while left != {}
        invariant left <= tasks.Keys == old(tasks).Keys
        invariant forall t :: t in tasks ==> tasks[t] == if t in left then old(tasks)[t] else Woken(old(tasks)[t], lane)
        decreases left
      {
        HasMember(left);
        var t :| t in left;
        if tasks[t].Sleeping? && tasks[t].lane == lane {
          tasks := tasks[t := Checking(tasks[t].key, lane, tasks[t].token)];
        }
        left := left - {t};
      }
      assert forall t :: t in tasks ==> tasks[t] == NotifyAll(old(tasks), lane)[t];
    }

    /** From the call of `hold` to its first suspension: find or make the lane, append the token, notify. */
    method Enter(t: TaskId, key: string, at: int)
      requires InRange(Contents()) && t !in tasks
      modifies this
      ensures Contents() == Register(old(Contents()), t, key, at)
    {
      if key !in lanes {
        lanes := lanes[key := |objects|];
        objects := objects + [Lane(false, [])];
      }
      var lane := lanes[key];
      var token := Token(at, sequence);
      sequence := sequence + 1;
      objects := objects[lane := objects[lane].(waiters := objects[lane].waiters + [token])];
      NotifyAllOn(lane);
      tasks := tasks[t := Checking(key, lane, token)];
    }

    /** One evaluation of the wait predicate: take the lane, or go (back) to sleep. */
    method TryAcquire(t: TaskId) returns (admitted: bool)
      requires InRange(Contents()) && t in tasks && tasks[t].Checking?
      modifies this
      ensures Contents() == Check(old(Contents()), t)
      ensures admitted == old(MyTurn(Contents(), t))
    {
      var Checking(key, lane, token) := tasks[t];
      var waiters := objects[lane].waiters;
      admitted := !objects[lane].active && waiters != [] && token == Least(waiters);
      if admitted {
        objects := objects[lane := Lane(true, LessToken(waiters, token))];
        tasks := tasks[t := Holding(key, lane)];
      } else {
        tasks := tasks[t := Sleeping(key, lane, token)];
      }
    }

    /** The end of the body: free the lane, notify, and drop the record when nobody uses it. */
    method Leave(t: TaskId)
      requires InRange(Contents()) && t in tasks && tasks[t].Holding?
      modifies this
      ensures Contents() == Release(old(Contents()), t)
    {
      var Holding(key, lane) := tasks[t];
      objects := objects[lane := objects[lane].(active := false)];
      NotifyAllOn(lane);
      tasks := tasks - {t};
      if objects[lane].waiters == [] && !objects[lane].active {
        lanes := lanes - {key};
      }
    }
  }

  // ---- Invariant -----------------------------------------------------------------------

  predicate Waits(t: Task) { t.Checking? || t.Sleeping? }

  ghost predicate Waiter(s: State, t: TaskId, lane: LaneId, token: Token) {
    t in s.tasks && Waits(s.tasks[t]) && s.tasks[t].lane == lane && s.tasks[t].token == token
  }

  ghost predicate Holder(s: State, t: TaskId, lane: LaneId) {
    t in s.tasks && s.tasks[t].Holding? && s.tasks[t].lane == lane
  }

  ghost predicate UsesKey(s: State, t: TaskId, key: string) {
    t in s.tasks && s.tasks[t].key == key
  }

  /** Every task is on the lane the dictionary has for its key, and distinct keys have distinct lanes. */
  ghost predicate DictionaryOk(s: State) {
    && InRange(s)
    && (forall t :: t in s.tasks ==> s.tasks[t].key in s.lanes && s.lanes[s.tasks[t].key] == s.tasks[t].lane)
    && (forall k, k' :: k in s.lanes && k' in s.lanes && s.lanes[k] == s.lanes[k'] ==> k == k')
  }

  /** No leak: every lane in the dictionary is used by some task. */
  ghost predicate NoLeak(s: State) {
    forall k :: k in s.lanes ==> exists t :: UsesKey(s, t, k)
  }

  /** Waiting tasks are on their lane's list, under tokens of their own. */
  ghost predicate TokensOk(s: State)
    requires InRange(s)
  {
    && (forall t :: t in s.tasks && Waits(s.tasks[t]) ==>
          s.tasks[t].token.sequence < s.sequence && s.tasks[t].token in s.objects[s.tasks[t].lane].waiters)
    && (forall t, t' :: t in s.tasks && t' in s.tasks && Waits(s.tasks[t]) && Waits(s.tasks[t']) && t != t' ==>
          s.tasks[t].token != s.tasks[t'].token)
  }

  /** Every token on a list belongs to a task waiting there, and is there once. */
  ghost predicate ListsOk(s: State) {
    && (forall o, x :: 0 <= o < |s.objects| && x in s.objects[o].waiters ==> exists t :: Waiter(s, t, o, x))
    && (forall o :: 0 <= o < |s.objects| ==> Distinct(s.objects[o].waiters))
  }

  /** A lane is active exactly while one task holds it, and never two. */
  ghost predicate HoldersOk(s: State)
    requires InRange(s)
  {
    && (forall t :: t in s.tasks && s.tasks[t].Holding? ==> s.objects[s.tasks[t].lane].active)
    && (forall o :: 0 <= o < |s.objects| && s.objects[o].active ==> exists t :: Holder(s, t, o))
    && (forall t, t' :: t in s.tasks && t' in s.tasks && s.tasks[t].Holding? && s.tasks[t'].Holding? && t != t' ==>
          s.tasks[t].lane != s.tasks[t'].lane)
  }

  /** No lost wakeup: the least waiter of an idle lane is never asleep. */
  ghost predicate WakeupsOk(s: State)
    requires InRange(s)
  {
    forall t :: t in s.tasks && s.tasks[t].Sleeping? ==> NotNext(s.objects[s.tasks[t].lane], s.tasks[t].token)
  }

  predicate NotNext(lane: Lane, token: Token) {
    lane.active || lane.waiters == [] || token != Least(lane.waiters)
  }

  ghost predicate Inv(s: State) {
    DictionaryOk(s) && NoLeak(s) && TokensOk(s) && ListsOk(s) && HoldersOk(s) && WakeupsOk(s)
  }

  // ---- Effect of a step, one relation each ----------------------------------------------

  ghost predicate Registered(s: State, s': State, t: TaskId, key: string, lane: LaneId, token: Token) {
    && t !in s.tasks && token.sequence == s.sequence && s'.sequence == s.sequence + 1
    && (if lane < |s.objects| then key in s.lanes && s.lanes[key] == lane && s'.lanes == s.lanes && |s'.objects| == |s.objects|
        else lane == |s.objects| && key !in s.lanes && s'.lanes == s.lanes[key := lane] && |s'.objects| == |s.objects| + 1)
    && (forall o :: 0 <= o < |s.objects| && o != lane ==> s'.objects[o] == s.objects[o])
    && s'.objects[lane] == (if lane < |s.objects| then Lane(s.objects[lane].active, s.objects[lane].waiters + [token])
                            else Lane(false, [token]))
    && s'.tasks == s.tasks[t := Checking(key, lane, token)]
  }

  /** The state in which everybody asleep on the lane has been woken. */
  function Notified(s: State, lane: LaneId): State {
    s.(tasks := NotifyAll(s.tasks, lane))
  }

  ghost predicate NobodySleeps(s: State, lane: LaneId) {
    forall t :: t in s.tasks && s.tasks[t].Sleeping? ==> s.tasks[t].lane != lane
  }

  /** Two states that differ only in which waiting tasks are asleep. */
  ghost predicate SameShape(s: State, s': State) {
    && s'.lanes == s.lanes && s'.objects == s.objects && s'.sequence == s.sequence && s'.tasks.Keys == s.tasks.Keys
    && (forall t :: t in s.tasks ==> SameTask(s.tasks[t], s'.tasks[t]))
  }

  predicate SameTask(a: Task, b: Task) {
    a.key == b.key && a.lane == b.lane && (if Waits(a) then Waits(b) && a.token == b.token else b == a)
  }

  lemma ShapeKeepsTasks(s: State, s': State)
    requires SameShape(s, s') && DictionaryOk(s) && TokensOk(s)
    ensures DictionaryOk(s') && TokensOk(s')
  {
    forall t | t in s'.tasks
      ensures SameTask(s.tasks[t], s'.tasks[t])
    {
    }
  }

  lemma ShapeKeepsLists(s: State, s': State)
    requires SameShape(s, s') && NoLeak(s) && ListsOk(s)
    ensures NoLeak(s') && ListsOk(s')
  {
    forall k | k in s'.lanes
      ensures exists u :: UsesKey(s', u, k)
    {
      var u :| UsesKey(s, u, k);
      assert UsesKey(s', u, k);
    }
    forall o, x | 0 <= o < |s'.objects| && x in s'.objects[o].waiters
      ensures exists u :: Waiter(s', u, o, x)
    {
      assert x in s.objects[o].waiters;
      var u :| Waiter(s, u, o, x);
      assert SameTask(s.tasks[u], s'.tasks[u]);
      assert Waiter(s', u, o, x);
    }
  }

  lemma ShapeKeepsHolders(s: State, s': State)
    requires SameShape(s, s') && InRange(s) && InRange(s') && HoldersOk(s)
    ensures HoldersOk(s')
  {
    forall t | t in s'.tasks
      ensures SameTask(s.tasks[t], s'.tasks[t])
    {
    }
    forall o | 0 <= o < |s'.objects| && s'.objects[o].active
      ensures exists u :: Holder(s', u, o)
    {
      var u :| Holder(s, u, o);
      assert Holder(s', u, o);
    }
  }

  lemma NotifyEffect(s: State, lane: LaneId)
    requires InRange(s) && WakeupsOk(s)
    ensures SameShape(s, Notified(s, lane)) && NobodySleeps(Notified(s, lane), lane)
    ensures InRange(Notified(s, lane)) && WakeupsOk(Notified(s, lane))
  {
    var n := Notified(s, lane);
    forall t | t in n.tasks
      ensures t in s.tasks && n.tasks[t] == Woken(s.tasks[t], lane)
    {
    }
  }

  lemma NotifyKeepsInv(s: State, lane: LaneId)
    requires Inv(s)
    ensures Inv(Notified(s, lane)) && NobodySleeps(Notified(s, lane), lane)
  {
    NotifyEffect(s, lane);
    ShapeKeepsTasks(s, Notified(s, lane));
    ShapeKeepsLists(s, Notified(s, lane));
    ShapeKeepsHolders(s, Notified(s, lane));
  }

  lemma RegisterEffect(s: State, t: TaskId, key: string, at: int)
    requires DictionaryOk(s) && t !in s.tasks
    ensures var s' := Register(s, t, key, at);
            t in s'.tasks &&
            Registered(Notified(s, s'.tasks[t].lane), s', t, key, s'.tasks[t].lane, Token(at, s.sequence))
  {
    assert [] + [Token(at, s.sequence)] == [Token(at, s.sequence)];
  }

  ghost predicate Admitted(s: State, s': State, t: TaskId) {
    && t in s.tasks && s.tasks[t].Checking? && s.tasks[t].lane < |s.objects| == |s'.objects|
    && s'.lanes == s.lanes && s'.sequence == s.sequence
    && var Checking(key, lane, token) := s.tasks[t];
       && s'.tasks == s.tasks[t := Holding(key, lane)]
       && !s.objects[lane].active && s'.objects[lane].active
       && (forall x :: x in s'.objects[lane].waiters <==> x in s.objects[lane].waiters && x != token)
       && (Distinct(s.objects[lane].waiters) ==> Distinct(s'.objects[lane].waiters))
       && (forall o :: 0 <= o < |s.objects| && o != lane ==> s'.objects[o] == s.objects[o])
  }

  lemma {:induction false} WithoutMembers(ts: seq<Token>, x: Token)
    requires Distinct(ts) && x in ts
    ensures Distinct(LessToken(ts, x))
    ensures forall y :: y in LessToken(ts, x) <==> y in ts && y != x
  {
    if ts[0] != x {
      assert x in ts[1..];
      assert Distinct(ts[1..]);
      WithoutMembers(ts[1..], x);
      var w := LessToken(ts[1..], x);
      assert ts[0] !in ts[1..];
      assert ts == [ts[0]] + ts[1..];
      assert forall y :: y in [ts[0]] + w <==> y == ts[0] || y in w;
    } else {
      assert ts == [x] + ts[1..];
      assert x !in ts[1..];
    }
  }

  lemma AdmitEffect(s: State, t: TaskId)
    requires DictionaryOk(s) && ListsOk(s) && t in s.tasks && s.tasks[t].Checking? && MyTurn(s, t)
    ensures Admitted(s, Check(s, t), t)
  {
    WithoutMembers(s.objects[s.tasks[t].lane].waiters, s.tasks[t].token);
  }

  ghost predicate Left(s: State, s': State, t: TaskId) {
    && t in s.tasks && s.tasks[t].Holding? && s.tasks[t].lane < |s.objects| == |s'.objects|
    && s'.sequence == s.sequence
    && var Holding(key, lane) := s.tasks[t];
       && s'.tasks == s.tasks - {t}
       && s'.objects[lane] == Lane(false, s.objects[lane].waiters)
       && (forall o :: 0 <= o < |s.objects| && o != lane ==> s'.objects[o] == s.objects[o])
       && s'.lanes == if s.objects[lane].waiters == [] then s.lanes - {key} else s.lanes
  }

  lemma ReleaseEffect(s: State, t: TaskId)
    requires DictionaryOk(s) && t in s.tasks && s.tasks[t].Holding?
    ensures var n := Notified(s, s.tasks[t].lane);
            t in n.tasks && n.tasks[t] == s.tasks[t] && Left(n, Release(s, t), t)
  {
  }

  // ---- Registering ---------------------------------------------------------------------

  lemma RegisterKeepsDictionary(s: State, s': State, t: TaskId, key: string, lane: LaneId, token: Token)
    requires DictionaryOk(s) && Registered(s, s', t, key, lane, token)
    ensures DictionaryOk(s')
  {
  }

  lemma RegisterKeepsNoLeak(s: State, s': State, t: TaskId, key: string, lane: LaneId, token: Token)
    requires NoLeak(s) && Registered(s, s', t, key, lane, token)
    ensures NoLeak(s')
  {
    forall k | k in s'.lanes
      ensures exists u :: UsesKey(s', u, k)
    {
      if k == key {
        assert UsesKey(s', t, k);
      } else {
        var u :| UsesKey(s, u, k);
        assert UsesKey(s', u, k);
      }
    }
  }

  lemma RegisterKeepsTokens(s: State, s': State, t: TaskId, key: string, lane: LaneId, token: Token)
    requires DictionaryOk(s) && DictionaryOk(s') && TokensOk(s) && Registered(s, s', t, key, lane, token)
    ensures TokensOk(s')
  {
    forall u | u in s'.tasks && Waits(s'.tasks[u])
      ensures s'.tasks[u].token.sequence < s'.sequence && s'.tasks[u].token in s'.objects[s'.tasks[u].lane].waiters
      ensures u != t ==> s'.tasks[u].token.sequence < s.sequence
    {
      if u == t {
        var queue := s'.objects[lane].waiters;
        assert queue[|queue| - 1] == token;
      } else {
        assert Waits(s.tasks[u]);
      }
    }
  }

  lemma RegisterKeepsLists(s: State, s': State, t: TaskId, key: string, lane: LaneId, token: Token)
    requires InRange(s) && TokensOk(s) && ListsOk(s) && Registered(s, s', t, key, lane, token)
    ensures ListsOk(s')
  {
    forall o, x | 0 <= o < |s'.objects| && x in s'.objects[o].waiters
      ensures exists u :: Waiter(s', u, o, x)
    {
      if o == lane && x == token {
        assert Waiter(s', t, o, x);
      } else {
        assert o < |s.objects| && x in s.objects[o].waiters;
        var u :| Waiter(s, u, o, x);
        assert Waiter(s', u, o, x);
      }
    }
    if lane < |s.objects| {
      assert token !in s.objects[lane].waiters by {
        forall x | x in s.objects[lane].waiters
          ensures x.sequence < s.sequence
        {
          var u :| Waiter(s, u, lane, x);
        }
      }
    }
  }

  lemma RegisterKeepsHolders(s: State, s': State, t: TaskId, key: string, lane: LaneId, token: Token)
    requires DictionaryOk(s) && DictionaryOk(s') && HoldersOk(s) && Registered(s, s', t, key, lane, token)
    ensures HoldersOk(s')
  {
    forall o | 0 <= o < |s'.objects| && s'.objects[o].active
      ensures exists u :: Holder(s', u, o)
    {
      var u :| Holder(s, u, o);
      assert Holder(s', u, o);
    }
  }

  /** Appending notifies everybody on the lane, so whoever was asleep there gets to check again. */
  lemma RegisterKeepsWakeups(s: State, s': State, t: TaskId, key: string, lane: LaneId, token: Token)
    requires DictionaryOk(s) && DictionaryOk(s') && WakeupsOk(s) && Registered(s, s', t, key, lane, token)
    requires NobodySleeps(s, lane)
    ensures WakeupsOk(s')
  {
    forall u | u in s'.tasks && s'.tasks[u].Sleeping?
      ensures NotNext(s'.objects[s'.tasks[u].lane], s'.tasks[u].token)
    {
      assert u in s.tasks && s'.tasks[u] == s.tasks[u] && s.tasks[u].lane != lane;
    }
  }

  // ---- Checking ------------------------------------------------------------------------

  lemma AdmitKeepsDictionary(s: State, s': State, t: TaskId)
    requires DictionaryOk(s) && NoLeak(s) && Admitted(s, s', t)
    ensures DictionaryOk(s') && NoLeak(s')
  {
    forall k | k in s'.lanes
      ensures exists u :: UsesKey(s', u, k)
    {
      var u :| UsesKey(s, u, k);
      assert UsesKey(s', u, k);
    }
  }

  lemma AdmitKeepsTokens(s: State, s': State, t: TaskId)
    requires DictionaryOk(s) && DictionaryOk(s') && TokensOk(s) && ListsOk(s) && Admitted(s, s', t)
    ensures TokensOk(s') && ListsOk(s')
  {
    forall o, x | 0 <= o < |s'.objects| && x in s'.objects[o].waiters
      ensures exists u :: Waiter(s', u, o, x)
    {
      assert x in s.objects[o].waiters;
      var u :| Waiter(s, u, o, x);
      assert u != t;
      assert Waiter(s', u, o, x);
    }
  }

  lemma AdmitKeepsHolders(s: State, s': State, t: TaskId)
    requires DictionaryOk(s) && DictionaryOk(s') && HoldersOk(s) && WakeupsOk(s) && Admitted(s, s', t)
    ensures HoldersOk(s') && WakeupsOk(s')
  {
    forall o | 0 <= o < |s'.objects| && s'.objects[o].active
      ensures exists u :: Holder(s', u, o)
    {
      if o == s.tasks[t].lane {
        assert Holder(s', t, o);
      } else {
        var u :| Holder(s, u, o);
        assert Holder(s', u, o);
      }
    }
  }

  /** Going to sleep is only for a task that is not next, so nobody's wakeup is lost. */
  lemma SleepKeepsInv(s: State, t: TaskId)
    requires Inv(s) && t in s.tasks && s.tasks[t].Checking? && !MyTurn(s, t)
    ensures Inv(Check(s, t))
  {
    SleepKeepsShape(s, t);
    ShapeKeepsInv(s, Check(s, t));
  }

  lemma SleepKeepsShape(s: State, t: TaskId)
    requires InRange(s) && WakeupsOk(s) && t in s.tasks && s.tasks[t].Checking? && !MyTurn(s, t)
    ensures SameShape(s, Check(s, t)) && InRange(Check(s, t)) && WakeupsOk(Check(s, t))
  {
  }

  lemma ShapeKeepsInv(s: State, s': State)
    requires Inv(s) && SameShape(s, s') && InRange(s') && WakeupsOk(s')
    ensures Inv(s')
  {
    ShapeKeepsTasks(s, s');
    ShapeKeepsLists(s, s');
    ShapeKeepsHolders(s, s');
  }

  // ---- Leaving -------------------------------------------------------------------------

  /** When a lane record is dropped, no other task is on its key. */
  lemma DiscardStrandsNobody(s: State, t: TaskId)
    requires Inv(s) && t in s.tasks && s.tasks[t].Holding? && s.objects[s.tasks[t].lane].waiters == []
    ensures forall u :: UsesKey(s, u, s.tasks[t].key) ==> u == t
  {
  }

  lemma LeaveKeepsDictionary(s: State, s': State, t: TaskId)
    requires Inv(s) && Left(s, s', t)
    ensures DictionaryOk(s') && NoLeak(s')
  {
    var Holding(key, lane) := s.tasks[t];
    if s.objects[lane].waiters == [] {
      DiscardStrandsNobody(s, t);
    }
    forall k | k in s'.lanes
      ensures exists u :: UsesKey(s', u, k)
    {
      if k == key {
        var x := s.objects[lane].waiters[0];
        assert x in s.objects[lane].waiters;
        var u :| Waiter(s, u, lane, x);
        assert UsesKey(s', u, k);
      } else {
        var u :| UsesKey(s, u, k);
        assert UsesKey(s', u, k);
      }
    }
    forall u | u in s'.tasks
      ensures s'.tasks[u].key in s'.lanes && s'.lanes[s'.tasks[u].key] == s'.tasks[u].lane
    {
      assert UsesKey(s, u, s.tasks[u].key);
    }
  }

  lemma LeaveKeepsTokens(s: State, s': State, t: TaskId)
    requires DictionaryOk(s) && DictionaryOk(s') && TokensOk(s) && ListsOk(s) && Left(s, s', t)
    ensures TokensOk(s') && ListsOk(s')
  {
    forall o, x | 0 <= o < |s'.objects| && x in s'.objects[o].waiters
      ensures exists u :: Waiter(s', u, o, x)
    {
      assert x in s.objects[o].waiters;
      var u :| Waiter(s, u, o, x);
      assert Waiter(s', u, o, x);
    }
  }

  lemma LeaveKeepsHolders(s: State, s': State, t: TaskId)
    requires DictionaryOk(s) && DictionaryOk(s') && HoldersOk(s) && WakeupsOk(s) && Left(s, s', t)
    requires NobodySleeps(s, s.tasks[t].lane)
    ensures HoldersOk(s') && WakeupsOk(s')
  {
    var lane := s.tasks[t].lane;
    forall o | 0 <= o < |s'.objects| && s'.objects[o].active
      ensures exists u :: Holder(s', u, o)
    {
      assert o != lane && s.objects[o].active;
      var u :| Holder(s, u, o);
      assert Holder(s', u, o);
    }
    forall u | u in s'.tasks && s'.tasks[u].Sleeping?
      ensures NotNext(s'.objects[s'.tasks[u].lane], s'.tasks[u].token)
    {
      assert s'.tasks[u] == s.tasks[u] && s.tasks[u].lane != lane;
    }
  }

  // ---- Runs ----------------------------------------------------------------------------

  lemma RegisterKeepsInv(s: State, t: TaskId, key: string, at: int)
    requires Inv(s) && t !in s.tasks
    ensures Inv(Register(s, t, key, at))
  {
    var s' := Register(s, t, key, at);
    RegisterEffect(s, t, key, at);
    var lane, token := s'.tasks[t].lane, Token(at, s.sequence);
    var n := Notified(s, lane);
    NotifyKeepsInv(s, lane);
    RegisterKeepsDictionary(n, s', t, key, lane, token);
    RegisterKeepsNoLeak(n, s', t, key, lane, token);
    RegisterKeepsTokens(n, s', t, key, lane, token);
    RegisterKeepsLists(n, s', t, key, lane, token);
    RegisterKeepsHolders(n, s', t, key, lane, token);
    RegisterKeepsWakeups(n, s', t, key, lane, token);
  }

  lemma CheckKeepsInv(s: State, t: TaskId)
    requires Inv(s) && t in s.tasks && s.tasks[t].Checking?
    ensures Inv(Check(s, t))
  {
    if MyTurn(s, t) {
      AdmitEffect(s, t);
      AdmitKeepsDictionary(s, Check(s, t), t);
      AdmitKeepsTokens(s, Check(s, t), t);
      AdmitKeepsHolders(s, Check(s, t), t);
    } else {
      SleepKeepsInv(s, t);
    }
  }

  lemma LeaveKeepsInv(s: State, s': State, t: TaskId)
    requires Inv(s) && Left(s, s', t) && NobodySleeps(s, s.tasks[t].lane)
    ensures Inv(s')
  {
    LeaveKeepsDictionary(s, s', t);
    LeaveKeepsTokens(s, s', t);
    LeaveKeepsHolders(s, s', t);
  }

  lemma ReleaseKeepsInv(s: State, t: TaskId)
    requires Inv(s) && t in s.tasks && s.tasks[t].Holding?
    ensures Inv(Release(s, t))
  {
    ReleaseEffect(s, t);
    var lane, s' := s.tasks[t].lane, Release(s, t);
    NotifyKeepsInv(s, lane);
    var n := Notified(s, lane);
    assert n.tasks[t].lane == lane;
    LeaveKeepsInv(n, s', t);
  }

  lemma StepKeepsInv(s: State, e: Event)
    requires Inv(s) && Enabled(s, e)
    ensures Inv(Step(s, e))
  {
    match e
    case RegisterEvent(t, key, at) => RegisterKeepsInv(s, t, key, at);
    case CheckEvent(t) => CheckKeepsInv(s, t);
    case ReleaseEvent(t) => ReleaseKeepsInv(s, t);
  }

  /** A task keeps its key and stays inside the body from one state to the next. */
  predicate Carries(s: State, s': State, t: TaskId) {
    t in s.tasks && t in s'.tasks && s'.tasks[t].key == s.tasks[t].key && (s.tasks[t].Holding? ==> s'.tasks[t].Holding?)
  }

  /** Registering leaves every other task where it is in the protocol, beyond waking it. */
  lemma RegisterSparesOthers(s: State, t: TaskId, key: string, at: int)
    requires InRange(s) && t !in s.tasks
    ensures forall u :: u in s.tasks ==> Carries(s, Register(s, t, key, at), u)
    ensures Register(s, t, key, at).tasks.Keys == s.tasks.Keys + {t}
    ensures Register(s, t, key, at).tasks[t].key == key
  {
    var n := NotifyAll(s.tasks, Opened(s, key).lanes[key]);
    assert forall u :: u in s.tasks ==> u in n && n[u] == Woken(s.tasks[u], Opened(s, key).lanes[key]);
  }

  lemma CheckSparesOthers(s: State, t: TaskId)
    requires InRange(s) && t in s.tasks && s.tasks[t].Checking?
    ensures forall u :: u in s.tasks ==> Carries(s, Check(s, t), u)
    ensures Check(s, t).tasks.Keys == s.tasks.Keys
  {
  }

  lemma ReleaseSparesOthers(s: State, t: TaskId)
    requires InRange(s) && t in s.tasks && s.tasks[t].Holding?
    ensures forall u :: u in s.tasks && u != t ==> Carries(s, Release(s, t), u)
    ensures Release(s, t).tasks.Keys == s.tasks.Keys - {t}
  {
    var n := NotifyAll(s.tasks, s.tasks[t].lane);
    assert forall u :: u in s.tasks ==> u in n && n[u] == Woken(s.tasks[u], s.tasks[t].lane);
  }

  /** A run from the empty registry: each event is enabled in the state the previous ones lead to. */
  ghost predicate Reaches(events: seq<Event>, s: State) {
    if events == [] then s == Empty
    else
      exists p :: Reaches(events[..|events| - 1], p) && InRange(p) && Enabled(p, events[|events| - 1])
                  && s == Step(p, events[|events| - 1])
  }

  lemma {:induction false} ReachableInv(events: seq<Event>, s: State)
    requires Reaches(events, s)
    ensures Inv(s)
  {
    if events != [] {
      var n := |events| - 1;
      var p :| Reaches(events[..n], p) && InRange(p) && Enabled(p, events[n]) && s == Step(p, events[n]);
      ReachableInv(events[..n], p);
      StepKeepsInv(p, events[n]);
    }
  }

  /** At most one task is inside the body per key, across all lane records ever made for the key. */
  lemma AtMostOneHolder(events: seq<Event>, s: State, t: TaskId, t': TaskId)
    requires Reaches(events, s)
    requires t in s.tasks && t' in s.tasks && s.tasks[t].Holding? && s.tasks[t'].Holding?
    requires s.tasks[t].key == s.tasks[t'].key
    ensures t == t'
  {
    ReachableInv(events, s);
  }

  /** The task let in comes before every other task registered for the key. */
  lemma EarliestFirst(events: seq<Event>, s: State, t: TaskId, u: TaskId)
    requires Reaches(events, s) && InRange(s) && Enabled(s, CheckEvent(t))
    requires Check(s, t).tasks[t].Holding?
    requires u in s.tasks && s.tasks[u].key == s.tasks[t].key
    ensures Waits(s.tasks[u]) && Before(s.tasks[t].token, s.tasks[u].token)
  {
    ReachableInv(events, s);
    var waiters := s.objects[s.tasks[t].lane].waiters;
    if Waits(s.tasks[u]) {
      var i :| 0 <= i < |waiters| && waiters[i] == s.tasks[u].token;
    }
  }

  /** A lane record leaves the dictionary only when a release finds nobody waiting or holding any more. */
  lemma DiscardedOnlyWhenIdle(events: seq<Event>, s: State, e: Event, key: string)
    requires Reaches(events, s) && InRange(s) && Enabled(s, e)
    requires key in s.lanes
    ensures key in Step(s, e).lanes <==> exists u :: UsesKey(Step(s, e), u, key)
    ensures key in Step(s, e).lanes ==> Step(s, e).lanes[key] == s.lanes[key]
  {
    ReachableInv(events, s);
    StepKeepsInv(s, e);
    var s' := Step(s, e);
    KeysInUse(s', key);
    StepKeepsLane(s, e, key);
  }

  lemma KeysInUse(s: State, key: string)
    requires DictionaryOk(s) && NoLeak(s)
    ensures key in s.lanes <==> exists u :: UsesKey(s, u, key)
  {
  }

  lemma StepKeepsLane(s: State, e: Event, key: string)
    requires InRange(s) && Enabled(s, e) && key in s.lanes
    ensures key in Step(s, e).lanes ==> Step(s, e).lanes[key] == s.lanes[key]
  {
  }

  /** Whenever somebody is registered for a key, a task holds it or some woken task's next check admits it. */
  lemma NeverStuck(events: seq<Event>, s: State, u: TaskId)
    requires Reaches(events, s) && u in s.tasks
    ensures InRange(s)
    ensures exists t :: UsesKey(s, t, s.tasks[u].key) &&
              (s.tasks[t].Holding? || (s.tasks[t].Checking? && Check(s, t).tasks[t].Holding?))
  {
    ReachableInv(events, s);
    var lane := s.tasks[u].lane;
    if s.objects[lane].active {
      var t :| Holder(s, t, lane);
      assert UsesKey(s, t, s.tasks[u].key);
    } else {
      assert s.tasks[u].token in s.objects[lane].waiters;
      var m := Least(s.objects[lane].waiters);
      var t :| Waiter(s, t, lane, m);
      assert UsesKey(s, t, s.tasks[u].key) && MyTurn(s, t);
    }
  }
}
