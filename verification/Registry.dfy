/**
 The assistant's bounded proposal registry (src/fleetpulse/assistant/service.py:96-114, 178-183):
 an insertion-ordered dictionary from (analysis id, proposal id) to the recorded decision.
 */
module Registry {
  import opened Wrappers
  import opened Decimals

  datatype Key = Key(analysisId: string, proposalId: string)

  datatype Receipt = Receipt(reviewId: string, key: Key, reviewer: string, approved: bool, rationale: string, reviewedAt: int)

  datatype Entry = Entry(key: Key, decision: Option<Receipt>)

  datatype ReviewError = UnknownProposal | DuplicateReview

  // ---------- the dictionary ----------

  function Keys(entries: seq<Entry>): (r: seq<Key>)
    ensures |r| == |entries| && forall i :: 0 <= i < |entries| ==> r[i] == entries[i].key
  {
    seq(|entries|, i requires 0 <= i < |entries| => entries[i].key)
  }

  /** Position of a key, or the length when it is absent. */
  function IndexOf(entries: seq<Entry>, key: Key): (i: nat)
    ensures i <= |entries|
    ensures i < |entries| ==> entries[i].key == key
    ensures forall j :: 0 <= j < i ==> entries[j].key != key
  {
    if entries == [] then 0
    else if entries[0].key == key then 0
    else 1 + IndexOf(entries[1..], key)
  }

  /** Assignment to a key: in place when it is there, else at the end. */
  function Assign(entries: seq<Entry>, key: Key, decision: Option<Receipt>): (r: seq<Entry>)
  {
    var i := IndexOf(entries, key);
    if i < |entries| then entries[i := Entry(key, decision)] else entries + [Entry(key, decision)]
  }

  function AssignAll(entries: seq<Entry>, keys: seq<Key>): (r: seq<Entry>) {
    if keys == [] then entries
    else Assign(AssignAll(entries, keys[..|keys| - 1]), keys[|keys| - 1], None)
  }

  function Last<T>(xs: seq<T>, n: nat): (r: seq<T>) {
    if |xs| <= n then xs else xs[|xs| - n..]
  }

  /** The keys `proposal-1` … `proposal-n` of one analysis. */
  function ProposalKeys(analysisId: string, n: nat): (r: seq<Key>)
    ensures |r| == n && forall i :: 0 <= i < n ==> r[i] == Key(analysisId, "proposal-" + Decimal(i + 1))
  {
    seq(n, i requires 0 <= i < n => Key(analysisId, "proposal-" + Decimal(i + 1)))
  }

  lemma ProposalKeysDistinct(analysisId: string, n: nat)
    ensures Distinct(ProposalKeys(analysisId, n))
  {
    var keys := ProposalKeys(analysisId, n);
    forall i, j | 0 <= i < j < n ensures keys[i] != keys[j] {
      var prefix := "proposal-";
      var a, b := prefix + Decimal(i + 1), prefix + Decimal(j + 1);
      if a == b {
        assert a[|prefix|..] == Decimal(i + 1) && b[|prefix|..] == Decimal(j + 1);
        DecimalInjective(i + 1, j + 1);
      }
    }
  }

  // ---------- the service's two critical sections ----------

  class ProposalRegistry {
    const limit: int
    var proposals: seq<Entry>

    ghost predicate Valid()
      reads this
    {
      Distinct(Keys(proposals))
    }

    constructor (limit: int)
      ensures Valid() && this.limit == limit && proposals == []
    {
      this.limit, proposals := limit, [];
    }

    /** `_register`. With a negative limit the loop ends by popping from an empty dictionary, which raises. */
    method Register(analysisId: string, n: nat) returns (ok: bool)
      requires Valid()
      modifies this
      ensures Valid() && (ok <==> limit >= 0)
      ensures proposals == if limit >= 0 then Last(AssignAll(old(proposals), ProposalKeys(analysisId, n)), limit) else []
    {
      Record(ProposalKeys(analysisId, n));
      ok := Trim();
    }

    /** Every key gets an undecided entry. */
    method Record(keys: seq<Key>)
      requires Valid()
      modifies this
      ensures Valid() && proposals == AssignAll(old(proposals), keys)
    {
      ghost var start := proposals;
      for i := 0 to |keys|
        invariant Valid() && proposals == AssignAll(start, keys[..i])
      {
        assert keys[..i + 1][..i] == keys[..i];
        AssignKeepsDistinct(proposals, keys[i], None);
        proposals := Assign(proposals, keys[i], None);
      }
      assert keys[..|keys|] == keys;
    }

    /** The oldest entries go until the limit holds. */
    method Trim() returns (ok: bool)
      requires Valid()
      modifies this
      ensures Valid() && (ok <==> limit >= 0)
      ensures proposals == if limit >= 0 then Last(old(proposals), limit) else []
    {
      ghost var all := proposals;
      ghost var dropped := 0;
      while |proposals| > limit
        invariant Valid() && 0 <= dropped <= |all| && proposals == all[dropped..]
        invariant dropped == 0 || |all| - dropped >= limit
        decreases |proposals|
      {
        if proposals == [] {
          return false;
        }
        assert all[dropped..][1..] == all[dropped + 1..];
        DropKeepsDistinct(proposals);
        proposals := proposals[1..];
        dropped := dropped + 1;
      }
      return true;
    }

    /** `review`: at most one decision per registered key, and none for a key that is not there. */
    method Review(receipt: Receipt) returns (r: Result<Receipt, ReviewError>)
      requires Valid()
      modifies this
      ensures Valid() && r == ReviewResult(old(proposals), receipt)
      ensures proposals == if r.Success? then Assign(old(proposals), receipt.key, Some(receipt)) else old(proposals)
      ensures r.Success? <==> Entry(receipt.key, None) in old(proposals)
      ensures r == Failure(UnknownProposal) <==> receipt.key !in Keys(old(proposals))
      ensures r == Failure(DuplicateReview) <==> exists x :: x in old(proposals) && x.key == receipt.key && x.decision.Some?
      ensures r.Success? ==> r.value == receipt && Decided(old(proposals), proposals, receipt)
      ensures r.Failure? ==> proposals == old(proposals)
    {
      ReviewExact(proposals, receipt);
      var i := IndexOf(proposals, receipt.key);
      if i == |proposals| {
        return Failure(UnknownProposal);
      }
      if proposals[i].decision.Some? {
        return Failure(DuplicateReview);
      }
      AssignKeepsDistinct(proposals, receipt.key, Some(receipt));
      proposals := Assign(proposals, receipt.key, Some(receipt));
      return Success(receipt);
    }
  }

  function ReviewResult(entries: seq<Entry>, receipt: Receipt): (r: Result<Receipt, ReviewError>) {
    var i := IndexOf(entries, receipt.key);
    if i == |entries| then Failure(UnknownProposal)
    else if entries[i].decision.Some? then Failure(DuplicateReview)
    else Success(receipt)
  }

  /** The receipt's entry is decided with it, and every other entry is as it was, in the same order. */
  ghost predicate Decided(before: seq<Entry>, after: seq<Entry>, receipt: Receipt) {
    && Keys(after) == Keys(before)
    && (forall i :: 0 <= i < |before| ==>
          after[i] == if before[i].key == receipt.key then Entry(receipt.key, Some(receipt)) else before[i])
  }

  /** Success is for a key that is there and undecided; the two errors are for the two ways it can be otherwise. */
  lemma ReviewExact(entries: seq<Entry>, receipt: Receipt)
    requires Distinct(Keys(entries))
    ensures ReviewResult(entries, receipt).Success? <==> Entry(receipt.key, None) in entries
    ensures ReviewResult(entries, receipt) == Failure(UnknownProposal) <==> receipt.key !in Keys(entries)
    ensures ReviewResult(entries, receipt) == Failure(DuplicateReview)
       <==> exists x :: x in entries && x.key == receipt.key && x.decision.Some?
    ensures ReviewResult(entries, receipt).Success? ==>
              Decided(entries, Assign(entries, receipt.key, Some(receipt)), receipt)
  {
    var i := IndexOf(entries, receipt.key);
    if i < |entries| {
      assert Keys(entries)[i] == receipt.key;
      forall j | 0 <= j < |entries| && j != i ensures entries[j].key != receipt.key {
        assert Keys(entries)[j] != Keys(entries)[i];
      }
      assert entries[i] in entries;
    } else {
      AbsentKey(entries, receipt.key);
    }
  }

  lemma AbsentKey(entries: seq<Entry>, key: Key)
    requires forall j :: 0 <= j < |entries| ==> entries[j].key != key
    ensures key !in Keys(entries) && forall x :: x in entries ==> x.key != key
  {
  }

  lemma AssignKeepsDistinct(entries: seq<Entry>, key: Key, decision: Option<Receipt>)
    requires Distinct(Keys(entries))
    ensures Distinct(Keys(Assign(entries, key, decision)))
    ensures Keys(Assign(entries, key, decision)) == Keys(entries) + (if key in Keys(entries) then [] else [key])
  {
    var i := IndexOf(entries, key);
    if i < |entries| {
      assert Keys(entries)[i] == key;
      assert Keys(Assign(entries, key, decision)) == Keys(entries);
    } else {
      assert key !in Keys(entries);
      assert Keys(Assign(entries, key, decision)) == Keys(entries) + [key];
    }
  }

  lemma DropKeepsDistinct(entries: seq<Entry>)
    requires Distinct(Keys(entries)) && entries != []
    ensures Distinct(Keys(entries[1..]))
  {
    forall i | 0 <= i < |entries| - 1 ensures Keys(entries[1..])[i] == Keys(entries)[i + 1] {
    }
  }

  // ---------- whole runs ----------

  /** The lock makes any interleaving of analyses and reviews a sequence of these. */
  datatype Op = Analysis(analysisId: string, proposals: nat) | Decision(receipt: Receipt)

  /** The registry, with the log of keys registered and of keys that received a receipt. */
  datatype Log = Log(entries: seq<Entry>, registered: seq<Key>, issued: seq<Key>)

  ghost function After(limit: nat, ops: seq<Op>): (r: Log) {
    if ops == [] then Log([], [], [])
    else
      var k := |ops| - 1;
      Apply(limit, After(limit, ops[..k]), ops[k])
  }

  ghost function Apply(limit: nat, log: Log, op: Op): (r: Log) {
    match op
    case Analysis(id, n) =>
      Log(Last(AssignAll(log.entries, ProposalKeys(id, n)), limit), log.registered + ProposalKeys(id, n), log.issued)
    case Decision(receipt) =>
      if ReviewResult(log.entries, receipt).Success? then
        Log(Assign(log.entries, receipt.key, Some(receipt)), log.registered, log.issued + [receipt.key])
      else log
  }

  /** Every analysis draws an id of its own. */
  ghost predicate FreshAnalyses(ops: seq<Op>) {
    forall i, j :: 0 <= i < j < |ops| && ops[i].Analysis? && ops[j].Analysis? ==> ops[i].analysisId != ops[j].analysisId
  }

  ghost predicate LogOk(limit: nat, ops: seq<Op>, log: Log) {
    && Distinct(log.registered)
    && Keys(log.entries) == Last(log.registered, limit)
    && Distinct(log.issued)
    && (forall i :: 0 <= i < |log.entries| ==> (log.entries[i].decision.Some? <==> log.entries[i].key in log.issued))
    && (forall k :: k in log.issued ==> k in log.registered)
    && (forall i :: 0 <= i < |log.registered| ==> Analyzed(ops, log.registered[i].analysisId))
  }

  ghost predicate Analyzed(ops: seq<Op>, id: string) {
    exists i :: 0 <= i < |ops| && ops[i].Analysis? && ops[i].analysisId == id
  }

  lemma AbsentIndex(entries: seq<Entry>, key: Key)
    requires key !in Keys(entries)
    ensures IndexOf(entries, key) == |entries|
  {
    forall i | 0 <= i < |entries| ensures entries[i].key != key {
      assert Keys(entries)[i] in Keys(entries);
    }
  }

  /** Undecided entries for these keys. */
  function Undecided(keys: seq<Key>): (r: seq<Entry>)
    ensures |r| == |keys| && forall i :: 0 <= i < |keys| ==> r[i] == Entry(keys[i], None)
  {
    seq(|keys|, i requires 0 <= i < |keys| => Entry(keys[i], None))
  }

  lemma AssignNewKey(entries: seq<Entry>, front: seq<Key>, key: Key)
    requires key !in Keys(entries) && key !in front
    ensures Assign(entries + Undecided(front), key, None) == entries + Undecided(front + [key])
  {
    var mid := entries + Undecided(front);
    assert Keys(mid) == Keys(entries) + front;
    AbsentIndex(mid, key);
    assert Undecided(front + [key]) == Undecided(front) + [Entry(key, None)];
  }

  lemma {:induction false} AssignNewKeys(entries: seq<Entry>, keys: seq<Key>)
    requires Distinct(keys)
    requires forall k :: k in keys ==> k !in Keys(entries)
    ensures AssignAll(entries, keys) == entries + Undecided(keys)
  {
    if keys != [] {
      var n := |keys| - 1;
      assert forall k :: k in keys[..n] ==> k in keys;
      AssignNewKeys(entries, keys[..n]);
      assert keys == keys[..n] + [keys[n]];
      AssignNewKey(entries, keys[..n], keys[n]);
    }
  }

  lemma LastOfLast<T>(xs: seq<T>, ys: seq<T>, n: nat)
    ensures Last(Last(xs, n) + ys, n) == Last(xs + ys, n)
  {
  }

  lemma LastKeys(entries: seq<Entry>, n: nat)
    ensures Keys(Last(entries, n)) == Last(Keys(entries), n)
  {
  }

  lemma LastDistinct(registered: seq<Key>, n: nat)
    requires Distinct(registered)
    ensures Distinct(Last(registered, n))
    ensures forall k :: k in Last(registered, n) ==> k in registered
  {
  }

  lemma NewKeysAreNew(limit: nat, ops: seq<Op>, log: Log, id: string, n: nat)
    requires LogOk(limit, ops, log) && !Analyzed(ops, id)
    ensures forall k :: k in ProposalKeys(id, n) ==> k !in log.registered && k !in Keys(log.entries) && k !in log.issued
    ensures Distinct(log.registered + ProposalKeys(id, n))
  {
    var keys := ProposalKeys(id, n);
    ProposalKeysDistinct(id, n);
    LastDistinct(log.registered, limit);
    forall i, j | 0 <= i < |log.registered| && 0 <= j < n ensures log.registered[i] != keys[j] {
      assert Analyzed(ops, log.registered[i].analysisId);
    }
  }

  lemma AnalysisEntries(limit: nat, log: Log, keys: seq<Key>)
    requires Distinct(Keys(log.entries)) && Distinct(keys) && Keys(log.entries) == Last(log.registered, limit)
    requires forall k :: k in keys ==> k !in Keys(log.entries) && k !in log.issued
    requires forall i :: 0 <= i < |log.entries| ==> (log.entries[i].decision.Some? <==> log.entries[i].key in log.issued)
    ensures var entries := Last(AssignAll(log.entries, keys), limit);
            && Keys(entries) == Last(log.registered + keys, limit)
            && forall i :: 0 <= i < |entries| ==> (entries[i].decision.Some? <==> entries[i].key in log.issued)
  {
    AssignNewKeys(log.entries, keys);
    UndecidedAppend(log.entries, keys, log.issued);
    var all := log.entries + Undecided(keys);
    LastKeys(all, limit);
    LastOfLast(log.registered, keys, limit);
  }

  lemma UndecidedAppend(entries: seq<Entry>, keys: seq<Key>, issued: seq<Key>)
    requires forall k :: k in keys ==> k !in issued
    requires forall i :: 0 <= i < |entries| ==> (entries[i].decision.Some? <==> entries[i].key in issued)
    ensures var all := entries + Undecided(keys);
            && Keys(all) == Keys(entries) + keys
            && forall i :: 0 <= i < |all| ==> (all[i].decision.Some? <==> all[i].key in issued)
  {
    var all := entries + Undecided(keys);
    forall i | 0 <= i < |all| ensures all[i].decision.Some? <==> all[i].key in issued {
      if i >= |entries| {
        assert all[i].key == keys[i - |entries|];
      }
    }
  }

  lemma AnalyzedGrows(ops: seq<Op>, op: Op)
    ensures forall id :: Analyzed(ops, id) ==> Analyzed(ops + [op], id)
    ensures op.Analysis? ==> Analyzed(ops + [op], op.analysisId)
  {
    var more := ops + [op];
    forall id | Analyzed(ops, id) ensures Analyzed(more, id) {
      var i :| 0 <= i < |ops| && ops[i].Analysis? && ops[i].analysisId == id;
      assert more[i] == ops[i];
    }
    assert more[|ops|] == op;
  }

  lemma AnalysisOk(limit: nat, ops: seq<Op>, log: Log, id: string, n: nat)
    requires LogOk(limit, ops, log) && !Analyzed(ops, id)
    ensures LogOk(limit, ops + [Analysis(id, n)], Apply(limit, log, Analysis(id, n)))
  {
    var keys := ProposalKeys(id, n);
    NewKeysAreNew(limit, ops, log, id, n);
    ProposalKeysDistinct(id, n);
    LastDistinct(log.registered, limit);
    AnalysisEntries(limit, log, keys);
    AnalyzedGrows(ops, Analysis(id, n));
  }

  lemma DecisionOk(limit: nat, ops: seq<Op>, log: Log, receipt: Receipt)
    requires LogOk(limit, ops, log)
    ensures LogOk(limit, ops + [Decision(receipt)], Apply(limit, log, Decision(receipt)))
  {
    AnalyzedGrows(ops, Decision(receipt));
    LastDistinct(log.registered, limit);
    if ReviewResult(log.entries, receipt).Success? {
      var i := IndexOf(log.entries, receipt.key);
      assert Keys(log.entries)[i] == receipt.key;
      AssignKeepsDistinct(log.entries, receipt.key, Some(receipt));
      forall j | 0 <= j < |log.entries| && j != i ensures log.entries[j].key != receipt.key {
        assert Keys(log.entries)[j] != Keys(log.entries)[i];
      }
    }
  }

  lemma {:induction false} LogInvariant(limit: nat, ops: seq<Op>)
    requires FreshAnalyses(ops)
    ensures LogOk(limit, ops, After(limit, ops))
  {
    if ops != [] {
      var k := |ops| - 1;
      var front := ops[..k];
      LogInvariant(limit, front);
      assert ops == front + [ops[k]];
      match ops[k]
      case Analysis(id, n) =>
        assert !Analyzed(front, id);
        AnalysisOk(limit, front, After(limit, front), id, n);
      case Decision(receipt) => DecisionOk(limit, front, After(limit, front), receipt);
    }
  }

  /**
   After any interleaving of analyses (with ids of their own) and reviews, the registry holds the
   most recently registered keys, at most `limit` of them, in registration order, and no key has
   ever received two receipts, evicted or not.
   */
  lemma RegistryOverRuns(limit: nat, ops: seq<Op>)
    requires FreshAnalyses(ops)
    ensures Keys(After(limit, ops).entries) == Last(After(limit, ops).registered, limit)
    ensures Distinct(After(limit, ops).issued)
    ensures forall k :: k in After(limit, ops).issued ==> k in After(limit, ops).registered
  {
    LogInvariant(limit, ops);
  }

  lemma {:induction false} AssignedIsUndecided(entries: seq<Entry>, keys: seq<Key>, k: Key)
    requires Distinct(Keys(entries)) && k in keys
    ensures Distinct(Keys(AssignAll(entries, keys)))
    ensures forall i :: 0 <= i < |AssignAll(entries, keys)| && AssignAll(entries, keys)[i].key == k ==>
              AssignAll(entries, keys)[i].decision.None?
    decreases |keys|
  {
    var n := |keys| - 1;
    var front := keys[..n];
    AllKeepDistinct(entries, front);
    var mid := AssignAll(entries, front);
    AssignKeepsDistinct(mid, keys[n], None);
    if keys[n] == k {
      var i := IndexOf(mid, k);
      forall j | i < j < |mid| ensures mid[j].key != k {
        assert Keys(mid)[j] != Keys(mid)[i];
      }
    } else {
      assert k in front;
      AssignedIsUndecided(entries, front, k);
    }
  }

  lemma {:induction false} AllKeepDistinct(entries: seq<Entry>, keys: seq<Key>)
    requires Distinct(Keys(entries))
    ensures Distinct(Keys(AssignAll(entries, keys)))
  {
    if keys != [] {
      var n := |keys| - 1;
      AllKeepDistinct(entries, keys[..n]);
      AssignKeepsDistinct(AssignAll(entries, keys[..n]), keys[n], None);
    }
  }

  /**
   Fresh ids are what this rests on. Whatever was decided, an analysis that reuses an id clears the
   decisions of that id's proposals: each one it leaves in the registry can be decided again.
   */
  lemma ReusedIdForgetsDecision(limit: nat, log: Log, n: nat, receipt: Receipt)
    requires Distinct(Keys(log.entries)) && receipt.key in ProposalKeys(receipt.key.analysisId, n)
    requires receipt.key in Keys(Apply(limit, log, Analysis(receipt.key.analysisId, n)).entries)
    ensures ReviewResult(Apply(limit, log, Analysis(receipt.key.analysisId, n)).entries, receipt).Success?
  {
    var keys := ProposalKeys(receipt.key.analysisId, n);
    AssignedIsUndecided(log.entries, keys, receipt.key);
    UndecidedCanBeReviewed(AssignAll(log.entries, keys), limit, receipt);
  }

  // ---------- a second receipt ----------

  /** Operation `i` gave out a receipt for this key. */
  ghost predicate IssuedAt(limit: nat, ops: seq<Op>, i: nat, key: Key) {
    && i < |ops| && ops[i].Decision? && ops[i].receipt.key == key
    && ReviewResult(After(limit, ops[..i]).entries, ops[i].receipt).Success?
  }

  ghost predicate Registers(op: Op, key: Key) {
    op.Analysis? && key in ProposalKeys(op.analysisId, op.proposals)
  }

  ghost predicate NoneUndecided(entries: seq<Entry>, key: Key) {
    forall i :: 0 <= i < |entries| && entries[i].key == key ==> entries[i].decision.Some?
  }

  lemma {:induction false} EntriesDistinct(limit: nat, ops: seq<Op>)
    ensures Distinct(Keys(After(limit, ops).entries))
  {
    if ops != [] {
      var k := |ops| - 1;
      var log := After(limit, ops[..k]);
      EntriesDistinct(limit, ops[..k]);
      match ops[k]
      case Analysis(id, n) =>
        AllKeepDistinct(log.entries, ProposalKeys(id, n));
        LastKeys(AssignAll(log.entries, ProposalKeys(id, n)), limit);
      case Decision(receipt) => AssignKeepsDistinct(log.entries, receipt.key, Some(receipt));
    }
  }

  /** Registering other keys does not touch this one. */
  lemma {:induction false} OthersRegistered(entries: seq<Entry>, keys: seq<Key>, key: Key)
    requires NoneUndecided(entries, key) && key !in keys
    ensures NoneUndecided(AssignAll(entries, keys), key)
  {
    if keys != [] {
      OthersRegistered(entries, keys[..|keys| - 1], key);
      assert keys[|keys| - 1] != key;
    }
  }

  lemma LastUndecided(entries: seq<Entry>, n: nat, key: Key)
    requires NoneUndecided(entries, key)
    ensures NoneUndecided(Last(entries, n), key)
  {
  }

  lemma OtherStep(limit: nat, log: Log, op: Op, key: Key)
    requires NoneUndecided(log.entries, key) && !Registers(op, key)
    ensures NoneUndecided(Apply(limit, log, op).entries, key)
  {
    match op
    case Analysis(id, n) =>
      OthersRegistered(log.entries, ProposalKeys(id, n), key);
      LastUndecided(AssignAll(log.entries, ProposalKeys(id, n)), limit, key);
    case Decision(receipt) =>
  }

  lemma AfterSnoc(limit: nat, ops: seq<Op>, n: nat)
    requires n < |ops|
    ensures After(limit, ops[..n + 1]) == Apply(limit, After(limit, ops[..n]), ops[n])
  {
    assert ops[..n + 1][..n] == ops[..n];
  }

  lemma {:induction false} IssueDecides(limit: nat, ops: seq<Op>, i: nat, key: Key)
    requires IssuedAt(limit, ops, i, key)
    ensures NoneUndecided(After(limit, ops[..i + 1]).entries, key)
  {
    EntriesDistinct(limit, ops[..i]);
    AfterSnoc(limit, ops, i);
    ReviewExact(After(limit, ops[..i]).entries, ops[i].receipt);
  }

  lemma {:induction false} StaysDecided(limit: nat, ops: seq<Op>, i: nat, n: nat, key: Key)
    requires IssuedAt(limit, ops, i, key) && i < n <= |ops|
    requires forall m :: i < m < n ==> !Registers(ops[m], key)
    ensures NoneUndecided(After(limit, ops[..n]).entries, key)
    decreases n
  {
    if n == i + 1 {
      IssueDecides(limit, ops, i, key);
    } else {
      StaysDecided(limit, ops, i, n - 1, key);
      AfterSnoc(limit, ops, n - 1);
      OtherStep(limit, After(limit, ops[..n - 1]), ops[n - 1], key);
    }
  }

  /** Over any run, with or without fresh ids: a key gets a second receipt only if it was registered again in between. */
  lemma SecondReceiptNeedsRegistration(limit: nat, ops: seq<Op>, i: nat, j: nat, key: Key)
    requires i < j && IssuedAt(limit, ops, i, key) && IssuedAt(limit, ops, j, key)
    ensures exists m :: i < m < j && Registers(ops[m], key)
  {
    if forall m :: i < m < j ==> !Registers(ops[m], key) {
      StaysDecided(limit, ops, i, j, key);
    }
  }

  lemma UndecidedCanBeReviewed(all: seq<Entry>, limit: nat, receipt: Receipt)
    requires receipt.key in Keys(Last(all, limit))
    requires forall i :: 0 <= i < |all| && all[i].key == receipt.key ==> all[i].decision.None?
    ensures ReviewResult(Last(all, limit), receipt).Success?
  {
    var entries := Last(all, limit);
    var j :| 0 <= j < |entries| && Keys(entries)[j] == receipt.key;
    var i := IndexOf(entries, receipt.key);
    assert entries[j].key == receipt.key;
    assert i < |entries|;
    assert entries[i] == all[|all| - |entries| + i];
  }
}
