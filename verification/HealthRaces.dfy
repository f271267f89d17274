/**
  The health record under concurrency.  Its fields are stored one at a time, so
  concurrent send calls may interleave between the stores of one another.
 */
module HealthRaces {
  import opened Resources
  import opened Transport

  datatype Field = HealthyFlag | HealthyTime | ErrorCount | LastError

  // The stores a call makes, in order: a failure leaves the time alone.
  function StoreCount(c: Call): nat {
    if c.error.None? then 4 else 3
  }

  function StoreAt(c: Call, n: nat): Field
    requires n < StoreCount(c)
  {
    if n == 0 then HealthyFlag
    else if c.error.None? then (if n == 1 then HealthyTime else if n == 2 then ErrorCount else LastError)
    else (if n == 1 then ErrorCount else LastError)
  }

  // Where field f stands among them; past the end if the call does not store it.
  function Position(c: Call, f: Field): nat {
    match f
    case HealthyFlag => 0
    case HealthyTime => if c.error.None? then 1 else 3
    case ErrorCount => if c.error.None? then 2 else 1
    case LastError => if c.error.None? then 3 else 2
  }

  lemma PositionIsIndex(c: Call, f: Field, n: nat)
    requires n < StoreCount(c)
    ensures StoreAt(c, n) == f <==> Position(c, f) == n
  {
  }

  // A success stores the flag, the time, the count and the error, a failure all but the time.
  lemma StoresInOrder(c: Call)
    ensures seq(StoreCount(c), n requires 0 <= n < StoreCount(c) => StoreAt(c, n)) ==
      if c.error.None? then [HealthyFlag, HealthyTime, ErrorCount, LastError] else [HealthyFlag, ErrorCount, LastError]
  {
  }

  function Store(h: Health, f: Field, c: Call): Health {
    match f
    case HealthyFlag => h.(healthy := c.error.None?)
    case HealthyTime => h.(lastHealthyTime := c.at)
    case ErrorCount => h.(consecutiveErrors := if c.error.None? then 0 else h.consecutiveErrors + 1)
    case LastError => h.(lastError := c.error)
  }

  // `order.Of(f)` lists the calls that have stored field f, in the order of their stores.
  datatype Orders = Orders(flag: seq<nat>, time: seq<nat>, count: seq<nat>, error: seq<nat>)
  {
    function Of(f: Field): seq<nat> {
      match f case HealthyFlag => flag case HealthyTime => time case ErrorCount => count case LastError => error
    }

    function Add(f: Field, i: nat): (o: Orders)
      ensures forall g: Field :: o.Of(g) == if g == f then Of(g) + [i] else Of(g)
    {
      match f
      case HealthyFlag => this.(flag := flag + [i])
      case HealthyTime => this.(time := time + [i])
      case ErrorCount => this.(count := count + [i])
      case LastError => this.(error := error + [i])
    }
  }

  datatype State = State(calls: seq<Call>, next: seq<nat>, health: Health, orders: Orders)

  function Start(calls: seq<Call>): State {
    State(calls, seq(|calls|, _ => 0), UNKNOWN, Orders([], [], [], []))
  }

  predicate Enabled(s: State, i: nat) {
    i < |s.calls| && i < |s.next| && s.next[i] < StoreCount(s.calls[i])
  }

  // Call i makes its next store.
  function Do(s: State, i: nat): State
    requires Enabled(s, i)
  {
    var f := StoreAt(s.calls[i], s.next[i]);
    s.(next := s.next[i := s.next[i] + 1], health := Store(s.health, f, s.calls[i]), orders := s.orders.Add(f, i))
  }

  ghost predicate Run(s: State, steps: seq<nat>, s': State)
    decreases |steps|
  {
    if steps == [] then s == s' else Enabled(s, steps[0]) && Run(Do(s, steps[0]), steps[1..], s')
  }

  predicate Finished(s: State) {
    |s.next| == |s.calls| && forall i | 0 <= i < |s.calls| :: s.next[i] == StoreCount(s.calls[i])
  }

  function InOrder(calls: seq<Call>, order: seq<nat>): seq<Call> {
    if order == [] then []
    else
      var n := |order| - 1;
      InOrder(calls, order[..n]) + if order[n] < |calls| then [calls[order[n]]] else []
  }

  predicate SameField(f: Field, h: Health, g: Health) {
    match f
    case HealthyFlag => h.healthy == g.healthy
    case HealthyTime => h.lastHealthyTime == g.lastHealthyTime
    case ErrorCount => h.consecutiveErrors == g.consecutiveErrors
    case LastError => h.lastError == g.lastError
  }

  // The field holds what it would hold had the calls that stored it run one after the
  // other in that order, and each call that has come past the store is in the order once.
  ghost predicate FieldInv(s: State, f: Field) {
    var order := s.orders.Of(f);
    && |s.next| == |s.calls|
    && SameField(f, s.health, HealthAfter(InOrder(s.calls, order)))
    && Distinct(order)
    && (forall i | i in order :: i < |s.calls|)
    && (forall i: nat | i < |s.calls| :: i in order <==> Position(s.calls[i], f) < s.next[i])
    && (forall i | 0 <= i < |s.calls| :: s.next[i] <= StoreCount(s.calls[i]))
  }

  lemma OneMoreCall(calls: seq<Call>, order: seq<nat>, i: nat)
    requires i < |calls|
    ensures HealthAfter(InOrder(calls, order + [i])) == Recorded(HealthAfter(InOrder(calls, order)), calls[i])
  {
    var order' := order + [i];
    assert order'[..|order'| - 1] == order;
    var history := InOrder(calls, order');
    assert history[..|history| - 1] == InOrder(calls, order) && history[|history| - 1] == calls[i];
  }

  lemma StoreLikeRecord(h: Health, g: Health, f: Field, c: Call)
    requires SameField(f, h, g) && (f.HealthyTime? ==> c.error.None?)
    ensures SameField(f, Store(h, f, c), Recorded(g, c))
  {
  }

  lemma StepKeepsValue(s: State, i: nat, f: Field)
    requires Enabled(s, i) && FieldInv(s, f)
    ensures SameField(f, Do(s, i).health, HealthAfter(InOrder(s.calls, Do(s, i).orders.Of(f))))
  {
    var c, n, order := s.calls[i], s.next[i], s.orders.Of(f);
    PositionIsIndex(c, f, n);
    if StoreAt(c, n) == f {
      OneMoreCall(s.calls, order, i);
      StoreLikeRecord(s.health, HealthAfter(InOrder(s.calls, order)), f, c);
    }
  }

  lemma StepKeepsOrder(s: State, i: nat, f: Field)
    requires Enabled(s, i) && FieldInv(s, f)
    ensures var s' := Do(s, i);
      && Distinct(s'.orders.Of(f))
      && (forall j | j in s'.orders.Of(f) :: j < |s.calls|)
      && (forall j: nat | j < |s.calls| :: j in s'.orders.Of(f) <==> Position(s.calls[j], f) < s'.next[j])
  {
    PositionIsIndex(s.calls[i], f, s.next[i]);
    if StoreAt(s.calls[i], s.next[i]) == f {
      assert i !in s.orders.Of(f);
      assert forall j :: j in s.orders.Of(f) + [i] <==> j in s.orders.Of(f) || j == i;
    }
  }

  lemma StepKeepsField(s: State, i: nat, f: Field)
    requires Enabled(s, i) && FieldInv(s, f)
    ensures FieldInv(Do(s, i), f)
  {
    StepKeepsValue(s, i, f);
    StepKeepsOrder(s, i, f);
  }

  lemma {:induction false} RunKeepsField(s: State, steps: seq<nat>, s': State, f: Field)
    requires FieldInv(s, f) && Run(s, steps, s')
    ensures FieldInv(s', f) && s'.calls == s.calls
    decreases |steps|
  {
    if steps == [] {
    } else {
      StepKeepsField(s, steps[0], f);
      RunKeepsField(Do(s, steps[0]), steps[1..], s', f);
    }
  }

  lemma StartField(calls: seq<Call>, f: Field)
    ensures FieldInv(Start(calls), f)
  {
    assert InOrder(calls, []) == [];
  }

  // Under every interleaving of the stores, once the calls are done there is for each
  // field an order of all the calls (for the time: of all the successful ones) after
  // which a sequential client would hold the same value in that field.
  lemma EachFieldIsSequential(calls: seq<Call>, steps: seq<nat>, s: State, f: Field)
    requires Run(Start(calls), steps, s)
    ensures SameField(f, s.health, HealthAfter(InOrder(calls, s.orders.Of(f))))
    ensures Distinct(s.orders.Of(f)) && forall i | i in s.orders.Of(f) :: i < |calls|
    ensures Finished(s) ==>
      forall i: nat | i < |calls| :: i in s.orders.Of(f) <==> (f.HealthyTime? ==> calls[i].error.None?)
  {
    StartField(calls, f);
    RunKeepsField(Start(calls), steps, s, f);
    forall i: nat | Finished(s) && i < |calls|
      ensures i in s.orders.Of(f) <==> (f.HealthyTime? ==> calls[i].error.None?)
    {
      assert i in s.orders.Of(f) <==> Position(calls[i], f) < s.next[i];
    }
  }

  // A last-healthy time, once recorded, is never lost: readiness does not revert.
  lemma {:induction false} HealthyTimeStays(s: State, steps: seq<nat>, s': State)
    requires Run(s, steps, s') && s.health.lastHealthyTime > 0
    requires forall c | c in s.calls :: c.at > 0
    ensures s'.health.lastHealthyTime > 0
    decreases |steps|
  {
    if steps == [] {
    } else {
      assert s.calls[steps[0]] in s.calls;
      HealthyTimeStays(Do(s, steps[0]), steps[1..], s');
    }
  }

  // What sets a field last decides what it says.
  predicate SaysHealthy(h: Health, f: Field) {
    match f
    case HealthyFlag => h.healthy
    case ErrorCount => h.consecutiveErrors == 0
    case LastError => h.lastError.None?
    case HealthyTime => h.lastHealthyTime > 0
  }

  // The last call to store a field.
  ghost predicate IsLast(s: State, f: Field, i: nat) {
    i < |s.calls| && s.orders.Of(f) != [] && s.orders.Of(f)[|s.orders.Of(f)| - 1] == i
  }

  lemma LastDecides(calls: seq<Call>, steps: seq<nat>, s: State, f: Field) returns (i: nat)
    requires Run(Start(calls), steps, s) && Finished(s) && calls != [] && !f.HealthyTime?
    ensures s.calls == calls && IsLast(s, f, i)
    ensures SaysHealthy(s.health, f) <==> calls[i].error.None?
  {
    EachFieldIsSequential(calls, steps, s, f);
    RunKeepsCalls(Start(calls), steps, s);
    var order := s.orders.Of(f);
    assert 0 in order;
    i := order[|order| - 1];
    assert i in order;
    assert order == order[..|order| - 1] + [i];
    OneMoreCall(calls, order[..|order| - 1], i);
    HealthEqualsHistory(InOrder(calls, order[..|order| - 1]));
  }

  lemma {:induction false} RunKeepsCalls(s: State, steps: seq<nat>, s': State)
    requires Run(s, steps, s')
    ensures s'.calls == s.calls
    decreases |steps|
  {
    if steps == [] {
    } else {
      RunKeepsCalls(Do(s, steps[0]), steps[1..], s');
    }
  }

  // When do the fields fit each other?  Once the calls are done, any two of the flag, the
  // error count and the last error tell the same story exactly if the call that stored
  // the one last and the call that stored the other last both succeeded or both failed.
  lemma FieldsFitExactly(calls: seq<Call>, steps: seq<nat>, s: State, f: Field, g: Field, i: nat, j: nat)
    requires Run(Start(calls), steps, s) && Finished(s) && calls != [] && !f.HealthyTime? && !g.HealthyTime?
    requires IsLast(s, f, i) && IsLast(s, g, j)
    ensures (SaysHealthy(s.health, f) <==> SaysHealthy(s.health, g))
            <==> (s.calls[i].error.None? <==> s.calls[j].error.None?)
  {
    var i' := LastDecides(calls, steps, s, f);
    var j' := LastDecides(calls, steps, s, g);
  }

  /* ---- Calls that do not overlap ---- */

  function Block(c: Call, i: nat): seq<nat> {
    if c.error.None? then [i] + ([i] + ([i] + ([i] + []))) else [i] + ([i] + ([i] + []))
  }

  // The calls of `order`, each storing all its fields before the next begins.
  function OneByOne(calls: seq<Call>, order: seq<nat>): seq<nat>
    requires forall k | 0 <= k < |order| :: order[k] < |calls|
  {
    if order == [] then []
    else
      var n := |order| - 1;
      OneByOne(calls, order[..n]) + Block(calls[order[n]], order[n])
  }

  lemma {:induction false} RunSplit(s: State, a: seq<nat>, b: seq<nat>, u: State) returns (t: State)
    requires Run(s, a + b, u)
    ensures Run(s, a, t) && Run(t, b, u)
    decreases |a|
  {
    if a == [] {
      assert a + b == b;
      t := s;
    } else {
      assert (a + b)[1..] == a[1..] + b;
      t := RunSplit(Do(s, a[0]), a[1..], b, u);
    }
  }

  // All the stores of a call in a row are one sequential record.
  lemma BlockRecords(s: State, i: nat, u: State)
    requires i < |s.calls| && Run(s, Block(s.calls[i], i), u)
    ensures u.health == Recorded(s.health, s.calls[i]) && u.calls == s.calls
  {
    var c := s.calls[i];
    var s1 := First(s, i, Block(c, i)[1..], u);
    var s2 := First(s1, i, Block(c, i)[2..], u);
    if c.error.None? {
      var s3 := First(s2, i, [i] + [], u);
      var s4 := First(s3, i, [], u);
    } else {
      var s3 := First(s2, i, [], u);
    }
  }

  lemma First(s: State, i: nat, rest: seq<nat>, u: State) returns (t: State)
    requires Run(s, [i] + rest, u)
    ensures Enabled(s, i) && t == Do(s, i) && Run(t, rest, u)
  {
    assert ([i] + rest)[1..] == rest;
    t := Do(s, i);
  }

  // If the stores of different calls do not overlap, the whole record is that of a
  // sequential client, and so all its fields fit one history.
  lemma {:induction false} SerialCallsFit(calls: seq<Call>, order: seq<nat>, s: State)
    requires forall k | 0 <= k < |order| :: order[k] < |calls|
    requires Run(Start(calls), OneByOne(calls, order), s)
    ensures s.health == HealthAfter(InOrder(calls, order)) && s.calls == calls
  {
    if order == [] {
    } else {
      var n := |order| - 1;
      var i := order[n];
      assert order == order[..n] + [i];
      var t := RunSplit(Start(calls), OneByOne(calls, order[..n]), Block(calls[i], i), s);
      SerialCallsFit(calls, order[..n], t);
      BlockRecords(t, i, s);
      OneMoreCall(calls, order[..n], i);
    }
  }

  /* ---- Calls that do ---- */

  // After one success and one failure the client may be left unhealthy with no error
  // counted and none remembered.
  lemma FieldsMayDisagree(e: SendError)
    ensures exists steps: seq<nat>, s: State ::
      && Run(Start([Call(None, 1), Call(Some(e), 1)]), steps, s) && Finished(s)
      && s.health == Health(false, 1, 0, None)
  {
    var s1 := Overtaken(e);
    var s2 := Do(s1, 0);
    var s3 := Do(s2, 0);
    var s := Do(s3, 0);
    Follow(s3, 0, [], s);
    Follow(s2, 0, [0] + [], s);
    Follow(s1, 0, [0] + ([0] + []), s);
    var steps := OvertakenFirst(e, s1, [0] + ([0] + ([0] + [])), s);
    assert Finished(s);
  }

  // A success stores its flag, then a failure makes all its stores.
  function Overtaken(e: SendError): State {
    State([Call(None, 1), Call(Some(e), 1)], [1, 3], Health(false, 0, 1, Some(e)), Orders([0, 1], [], [1], [1]))
  }

  lemma OvertakenFirst(e: SendError, s: State, rest: seq<nat>, u: State) returns (steps: seq<nat>)
    requires s == Overtaken(e) && Run(s, rest, u)
    ensures Run(Start([Call(None, 1), Call(Some(e), 1)]), steps, u)
  {
    var calls := [Call(None, 1), Call(Some(e), 1)];
    var s1 := Do(Start(calls), 0);
    assert s1 == State(calls, [1, 0], Health(true, 0, 0, None), Orders([0], [], [], []));
    var s2 := Do(s1, 1);
    assert s2 == State(calls, [1, 1], Health(false, 0, 0, None), Orders([0, 1], [], [], []));
    var s3 := Do(s2, 1);
    assert s3 == State(calls, [1, 2], Health(false, 0, 1, None), Orders([0, 1], [], [1], []));
    assert Do(s3, 1) == s;
    Follow(s3, 1, rest, u);
    Follow(s2, 1, [1] + rest, u);
    Follow(s1, 1, [1] + ([1] + rest), u);
    Follow(Start(calls), 0, [1] + ([1] + ([1] + rest)), u);
    steps := [0] + ([1] + ([1] + ([1] + rest)));
  }

  lemma Follow(s: State, i: nat, rest: seq<nat>, s': State)
    requires Enabled(s, i) && Run(Do(s, i), rest, s')
    ensures Run(s, [i] + rest, s')
  {
    assert ([i] + rest)[1..] == rest;
  }
}
