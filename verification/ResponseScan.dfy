/** The scan of a simulation response: an explicit stack over a JSON tree, against its recursive meaning. */
module ResponseScan {
  import opened Outcomes

  datatype Key = TextKey(text: string) | OtherKey

  datatype Node = Text(text: string) | Scalar | Listing(items: seq<Node>) | Mapping(entries: seq<Entry>)

  datatype Entry = Entry(key: Key, value: Node)

  const FORBIDDEN_KEYS: set<string> :=
    {"auditid", "executionid", "rawtransaction", "reservationid", "signedtransaction", "transactionhash",
     "transactionlink", "txhash"}

  const BROADCAST_STATUSES: set<string> := {"pending", "running", "completed", "failed", "success", "error"}

  const MAX_NODES := 10_000

  /** Case folding, and the same restricted to letters and digits, as the text library does them. */
  datatype TextRules = TextRules(fold: string -> string, normal: string -> string)

  // ---- what an acceptable response is ----

  function Objection(rules: TextRules, e: Entry): Option<Code> {
    if e.key.OtherKey? then Some(InvalidSimulationResponseKey)
    else if rules.normal(e.key.text) in FORBIDDEN_KEYS then Some(SimulationExecutionEvidencePresent)
    else if rules.normal(e.key.text) == "status" && e.value.Text? && rules.fold(e.value.text) in BROADCAST_STATUSES
    then Some(SimulationBroadcastStatusPresent)
    else None
  }

  /** No mapping at any depth has an objectionable entry. */
  predicate Clean(rules: TextRules, n: Node) {
    match n
    case Text(_) => true
    case Scalar => true
    case Listing(items) => forall i :: 0 <= i < |items| ==> Clean(rules, items[i])
    case Mapping(entries) =>
      forall i :: 0 <= i < |entries| ==> Objection(rules, entries[i]).None? && Clean(rules, entries[i].value)
  }

  /** Some mapping at some depth has an entry with this objection. */
  predicate Raises(rules: TextRules, n: Node, code: Code) {
    match n
    case Text(_) => false
    case Scalar => false
    case Listing(items) => exists i :: 0 <= i < |items| && Raises(rules, items[i], code)
    case Mapping(entries) =>
      exists i :: 0 <= i < |entries|
        && (Objection(rules, entries[i]) == Some(code) || Raises(rules, entries[i].value, code))
  }

  // ---- the same, entry by entry ----

  /** The entry occurs in the tree, in a mapping at any depth. */
  predicate Within(e: Entry, n: Node) {
    match n
    case Text(_) => false
    case Scalar => false
    case Listing(items) => exists i :: 0 <= i < |items| && Within(e, items[i])
    case Mapping(entries) => exists i :: 0 <= i < |entries| && (entries[i] == e || Within(e, entries[i].value))
  }

  /** A key of an execution, a transaction or a reservation, which a mere simulation does not have. */
  predicate IsExecutionKey(key: string) {
    || key == "auditid" || key == "executionid" || key == "reservationid" || key == "rawtransaction"
    || key == "signedtransaction" || key == "transactionhash" || key == "transactionlink" || key == "txhash"
  }

  predicate IsBroadcastStatus(status: string) {
    || status == "pending" || status == "running" || status == "completed" || status == "failed"
    || status == "success" || status == "error"
  }

  predicate NamesExecution(rules: TextRules, e: Entry) {
    e.key.TextKey? && IsExecutionKey(rules.normal(e.key.text))
  }

  /** The entry reports the status of something under way or done. */
  predicate ReportsBroadcast(rules: TextRules, e: Entry) {
    && e.key.TextKey? && rules.normal(e.key.text) == "status" && e.value.Text?
    && IsBroadcastStatus(rules.fold(e.value.text))
  }

  /** What an entry is refused for, one code for each fault. */
  predicate Faulty(rules: TextRules, e: Entry, code: Code) {
    || (code == InvalidSimulationResponseKey && e.key.OtherKey?)
    || (code == SimulationExecutionEvidencePresent && NamesExecution(rules, e))
    || (code == SimulationBroadcastStatusPresent && ReportsBroadcast(rules, e))
  }

  lemma ObjectionIsExact(rules: TextRules, e: Entry, code: Code)
    ensures Objection(rules, e) == Some(code) <==> Faulty(rules, e, code)
  {
    hide FORBIDDEN_KEYS, BROADCAST_STATUSES, IsExecutionKey, IsBroadcastStatus;
    StatusIsNotForbidden();
    if e.key.TextKey? { KeysAreListed(rules.normal(e.key.text)); }
    if e.value.Text? { StatusesAreListed(rules.fold(e.value.text)); }
  }

  lemma KeysAreListed(key: string)
    ensures key in FORBIDDEN_KEYS <==> IsExecutionKey(key)
  {
  }

  lemma StatusesAreListed(status: string)
    ensures status in BROADCAST_STATUSES <==> IsBroadcastStatus(status)
  {
  }

  lemma StatusIsNotForbidden()
    ensures !IsExecutionKey("status")
  {
  }

  /** What a tree raises is the fault of an entry that it has at some depth. */
  lemma {:induction false} RaisedIsWithin(rules: TextRules, n: Node, code: Code) returns (e: Entry)
    requires Raises(rules, n, code)
    ensures Within(e, n) && Faulty(rules, e, code)
    decreases n
  {
    hide Faulty, Objection;
    match n
    case Listing(items) =>
      var i :| 0 <= i < |items| && Raises(rules, items[i], code);
      e := RaisedIsWithin(rules, items[i], code);
    case Mapping(entries) =>
      var i :| 0 <= i < |entries| && (Objection(rules, entries[i]) == Some(code) || Raises(rules, entries[i].value, code));
      if Objection(rules, entries[i]) == Some(code) {
        ObjectionIsExact(rules, entries[i], code);
        e := entries[i];
      } else {
        assert entries[i].value < entries[i];
        e := RaisedIsWithin(rules, entries[i].value, code);
      }
  }

  lemma {:induction false} WithinIsRaised(rules: TextRules, n: Node, e: Entry, code: Code)
    requires Within(e, n) && Faulty(rules, e, code)
    ensures Raises(rules, n, code)
    decreases n
  {
    hide Faulty, Objection;
    match n
    case Listing(items) =>
      var i :| 0 <= i < |items| && Within(e, items[i]);
      WithinIsRaised(rules, items[i], e, code);
    case Mapping(entries) =>
      var i :| 0 <= i < |entries| && (entries[i] == e || Within(e, entries[i].value));
      if entries[i] == e {
        ObjectionIsExact(rules, e, code);
      } else {
        assert entries[i].value < entries[i];
        WithinIsRaised(rules, entries[i].value, e, code);
      }
  }

  /** A tree raises an objection if and only if an entry at some depth has the fault, and is clean if and only if
      none has any. */
  lemma CleanlinessIsExact(rules: TextRules, n: Node)
    ensures forall code :: Raises(rules, n, code) <==> exists e :: Within(e, n) && Faulty(rules, e, code)
    ensures Clean(rules, n) <==> forall e, code :: Within(e, n) ==> !Faulty(rules, e, code)
  {
    hide Faulty, Objection, Within, Clean, Raises;
    forall code ensures Raises(rules, n, code) <==> exists e :: Within(e, n) && Faulty(rules, e, code) {
      if Raises(rules, n, code) { var e := RaisedIsWithin(rules, n, code); }
      if e :| Within(e, n) && Faulty(rules, e, code) { WithinIsRaised(rules, n, e, code); }
    }
    if Clean(rules, n) {
      forall e, code | Within(e, n) ensures !Faulty(rules, e, code) {
        CleanRaisesNothing(rules, n, code);
      }
    } else {
      var code := UncleanRaisesSomething(rules, n);
    }
  }

  function Size(n: Node): nat {
    match n
    case Text(_) => 1
    case Scalar => 1
    case Listing(items) => 1 + SizeOfItems(items)
    case Mapping(entries) => 1 + SizeOfEntries(entries)
  }

  function SizeOfItems(items: seq<Node>): nat {
    if items == [] then 0 else SizeOfItems(items[..|items| - 1]) + Size(items[|items| - 1])
  }

  function SizeOfEntries(entries: seq<Entry>): nat {
    if entries == [] then 0
    else
      var last := entries[|entries| - 1];
      assert last in entries && last.value < last;
      SizeOfEntries(entries[..|entries| - 1]) + Size(last.value)
  }

  lemma {:induction false} ItemsAddUp(a: seq<Node>, b: seq<Node>)
    ensures SizeOfItems(a + b) == SizeOfItems(a) + SizeOfItems(b)
  {
    if b == [] {
      assert a + b == a;
    } else {
      var last := |b| - 1;
      assert (a + b)[..|a + b| - 1] == a + b[..last];
      ItemsAddUp(a, b[..last]);
    }
  }

  /** Clean and raising something exclude each other, and one of them always holds. */
  lemma {:induction false} CleanRaisesNothing(rules: TextRules, n: Node, code: Code)
    requires Clean(rules, n)
    ensures !Raises(rules, n, code)
    decreases n
  {
    match n
    case Text(_) =>
    case Scalar =>
    case Listing(items) =>
      forall i | 0 <= i < |items| ensures !Raises(rules, items[i], code) {
        CleanRaisesNothing(rules, items[i], code);
      }
    case Mapping(entries) =>
      forall i | 0 <= i < |entries| ensures !Raises(rules, entries[i].value, code) {
        assert entries[i].value < entries[i];
        CleanRaisesNothing(rules, entries[i].value, code);
      }
  }

  lemma {:induction false} UncleanRaisesSomething(rules: TextRules, n: Node) returns (code: Code)
    requires !Clean(rules, n)
    ensures Raises(rules, n, code)
    decreases n
  {
    match n
    case Listing(items) =>
      var i :| 0 <= i < |items| && !Clean(rules, items[i]);
      code := UncleanRaisesSomething(rules, items[i]);
    case Mapping(entries) =>
      var i :| 0 <= i < |entries| && !(Objection(rules, entries[i]).None? && Clean(rules, entries[i].value));
      if Objection(rules, entries[i]).Some? {
        code := Objection(rules, entries[i]).value;
      } else {
        assert entries[i].value < entries[i];
        code := UncleanRaisesSomething(rules, entries[i].value);
      }
  }

  // ---- the scan ----

  predicate AllClean(rules: TextRules, pending: seq<Node>) {
    forall i :: 0 <= i < |pending| ==> Clean(rules, pending[i])
  }

  predicate SomeRaises(rules: TextRules, pending: seq<Node>, code: Code) {
    exists i :: 0 <= i < |pending| && Raises(rules, pending[i], code)
  }

  /** From position from on, next holds the children of n. */
  predicate Children(n: Node, next: seq<Node>, from: nat) {
    from <= |next| &&
    match n
    case Text(_) => |next| == from
    case Scalar => |next| == from
    case Listing(items) => |next| == from + |items| && forall i :: 0 <= i < |items| ==> next[from + i] == items[i]
    case Mapping(entries) =>
      |next| == from + |entries| && forall i :: 0 <= i < |entries| ==> next[from + i] == entries[i].value
  }

  /** next is the stack with its top replaced by the top's children. */
  predicate Unfolds(pending: seq<Node>, next: seq<Node>)
    requires pending != []
  {
    var (current, rest) := (pending[|pending| - 1], |pending| - 1);
    Children(current, next, rest) && next[..rest] == pending[..rest]
  }

  predicate Unobjectionable(rules: TextRules, n: Node) {
    n.Mapping? ==> forall i :: 0 <= i < |n.entries| ==> Objection(rules, n.entries[i]).None?
  }

  /** Unfolding a top whose own entries raise nothing changes neither cleanliness nor what is raised. */
  lemma UnfoldingKeepsMeaning(rules: TextRules, pending: seq<Node>, next: seq<Node>)
    requires pending != [] && Unfolds(pending, next) && Unobjectionable(rules, pending[|pending| - 1])
    ensures AllClean(rules, pending) <==> AllClean(rules, next)
    ensures forall code :: SomeRaises(rules, next, code) ==> SomeRaises(rules, pending, code)
  {
    var (current, rest) := (pending[|pending| - 1], |pending| - 1);
    assert forall i :: 0 <= i < rest ==> next[i] == pending[i] by {
      assert forall i :: 0 <= i < rest ==> next[..rest][i] == pending[..rest][i];
    }
    if AllClean(rules, pending) {
      forall i | 0 <= i < |next| ensures Clean(rules, next[i]) {
        if i < rest { assert Clean(rules, pending[i]); } else { ChildIsClean(rules, current, next, rest, i - rest); }
      }
    }
    if AllClean(rules, next) {
      forall i | 0 <= i < |pending| ensures Clean(rules, pending[i]) {
        if i < rest { assert Clean(rules, next[i]); } else { ParentIsClean(rules, current, next, rest); }
      }
    }
    forall code | SomeRaises(rules, next, code) ensures SomeRaises(rules, pending, code) {
      var i :| 0 <= i < |next| && Raises(rules, next[i], code);
      if i < rest {
        assert Raises(rules, pending[i], code);
      } else {
        match current
        case Text(_) =>
        case Scalar =>
        case Listing(items) => assert Raises(rules, items[i - rest], code);
        case Mapping(entries) => assert Raises(rules, entries[i - rest].value, code);
        assert Raises(rules, current, code);
      }
    }
  }

  lemma ChildIsClean(rules: TextRules, n: Node, next: seq<Node>, from: nat, i: nat)
    requires Children(n, next, from) && Clean(rules, n) && from + i < |next|
    ensures Clean(rules, next[from + i])
  {
    match n
    case Text(_) =>
    case Scalar =>
    case Listing(items) => assert next[from + i] == items[i] && Clean(rules, items[i]);
    case Mapping(entries) => assert next[from + i] == entries[i].value && Clean(rules, entries[i].value);
  }

  lemma ParentIsClean(rules: TextRules, n: Node, next: seq<Node>, from: nat)
    requires Children(n, next, from) && Unobjectionable(rules, n)
    requires forall i :: from <= i < |next| ==> Clean(rules, next[i])
    ensures Clean(rules, n)
  {
    match n
    case Text(_) =>
    case Scalar =>
    case Listing(items) =>
      forall i | 0 <= i < |items| ensures Clean(rules, items[i]) { assert Clean(rules, next[from + i]); }
    case Mapping(entries) =>
      forall i | 0 <= i < |entries| ensures Clean(rules, entries[i].value) { assert Clean(rules, next[from + i]); }
  }

  /** The values of a mapping, pushed in order after the entry itself has been checked. */
  method PushValues(rules: TextRules, entries: seq<Entry>, rest: seq<Node>) returns (r: Result<seq<Node>>)
    ensures r.Success? <==> forall i :: 0 <= i < |entries| ==> Objection(rules, entries[i]).None?
    ensures r.Success? ==>
      && |r.value| == |rest| + |entries| && r.value[..|rest|] == rest
      && (forall i :: 0 <= i < |entries| ==> r.value[|rest| + i] == entries[i].value)
      && SizeOfItems(r.value) == SizeOfItems(rest) + SizeOfEntries(entries)
    ensures r.Failure? ==> exists i :: 0 <= i < |entries| && Objection(rules, entries[i]) == Some(r.code)
  {
    var pending := rest;
    var j := 0;
    while j < |entries|
      invariant 0 <= j <= |entries| && |pending| == |rest| + j && pending[..|rest|] == rest
      invariant forall i :: 0 <= i < j ==> Objection(rules, entries[i]).None? && pending[|rest| + i] == entries[i].value
      invariant SizeOfItems(pending) == SizeOfItems(rest) + SizeOfEntries(entries[..j])
    {
      var objection := Objection(rules, entries[j]);
      if objection.Some? { return Failure(objection.value); }
      assert entries[..j + 1][..j] == entries[..j];
      assert (pending + [entries[j].value])[..|pending|] == pending;
      pending := pending + [entries[j].value];
      j := j + 1;
    }
    assert entries[..|entries|] == entries;
    r := Success(pending);
  }

  /** Pop the top of the stack, check it, push its children. */
  method Expand(rules: TextRules, pending: seq<Node>) returns (r: Result<seq<Node>>)
    requires pending != []
    ensures r.Success? ==>
      && SizeOfItems(pending) == 1 + SizeOfItems(r.value)
      && (AllClean(rules, pending) <==> AllClean(rules, r.value))
      && (forall code :: SomeRaises(rules, r.value, code) ==> SomeRaises(rules, pending, code))
    ensures r.Failure? ==> r.code != SimulationResponseTooComplex && SomeRaises(rules, pending, r.code)
  {
    hide Clean, AllClean;
    var current, rest := pending[|pending| - 1], pending[..|pending| - 1];
    var next := rest;
    match current {
      case Mapping(entries) =>
        var pushed := PushValues(rules, entries, rest);
        if pushed.Failure? {
          assert Raises(rules, current, pushed.code);
          return Failure(pushed.code);
        }
        next := pushed.value;
      case Listing(items) =>
        ItemsAddUp(rest, items);
        next := rest + items;
      case Text(_) =>
      case Scalar =>
    }
    UnfoldingKeepsMeaning(rules, pending, next);
    r := Success(next);
  }

  /** A response passes exactly when it has at most 10,000 nodes and no faulty entry at any depth.  The count is only
      ever exceeded by a larger response, and every other refusal names the fault of an entry that the response really
      has. */
  method Scan(rules: TextRules, body: Node) returns (r: Result<()>)
    ensures r.Success? <==> Size(body) <= 10_000 && forall e, code :: Within(e, body) ==> !Faulty(rules, e, code)
    ensures r == Failure(SimulationResponseTooComplex) ==> Size(body) > 10_000
    ensures r.Failure? && r.code != SimulationResponseTooComplex ==> exists e :: Within(e, body) && Faulty(rules, e, r.code)
  {
    r := ScanNodes(rules, body);
    CleanlinessIsExact(rules, body);
  }

  /** The loop over the stack. */
  method ScanNodes(rules: TextRules, body: Node) returns (r: Result<()>)
    ensures r.Success? <==> Clean(rules, body) && Size(body) <= MAX_NODES
    ensures r == Failure(SimulationResponseTooComplex) ==> Size(body) > MAX_NODES
    ensures r.Failure? && r.code != SimulationResponseTooComplex ==> Raises(rules, body, r.code)
  {
    hide Clean, AllClean, Raises, Size, SomeRaises;
    var pending := [body];
    var visited := 0;
    StackOfOne(rules, body);
    while pending != []
      invariant visited <= MAX_NODES && visited + SizeOfItems(pending) == Size(body)
      invariant Clean(rules, body) <==> AllClean(rules, pending)
      invariant forall code :: SomeRaises(rules, pending, code) ==> Raises(rules, body, code)
      decreases SizeOfItems(pending)
    {
      visited := visited + 1;
      SizeIsPositive(pending);
      if visited > MAX_NODES { return Failure(SimulationResponseTooComplex); }
      var expanded := Expand(rules, pending);
      if expanded.Failure? {
        if Clean(rules, body) { CleanRaisesNothing(rules, body, expanded.code); }
        return Failure(expanded.code);
      }
      pending := expanded.value;
    }
    r := Success(());
  }

  lemma StackOfOne(rules: TextRules, n: Node)
    ensures AllClean(rules, [n]) <==> Clean(rules, n)
    ensures forall code :: SomeRaises(rules, [n], code) ==> Raises(rules, n, code)
    ensures AllClean(rules, []) && SizeOfItems([n]) == Size(n) && SizeOfItems([]) == 0
  {
    hide Clean, Raises, Size;
    assert [n][0] == n && [n][..0] == [];
  }

  lemma SizeIsPositive(pending: seq<Node>)
    requires pending != []
    ensures SizeOfItems(pending) >= 1
  {
  }
}
