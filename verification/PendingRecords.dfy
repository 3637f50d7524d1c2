/**
 One remembered request, as the three confirmation gates share it: a call that nobody agreed to is
 remembered and refused, one that was agreed to is let through and forgotten.
 */
module PendingRecords {
  import opened Wrappers

  /** Which of the store's commands go through during one call. */
  datatype Redis = Redis(canRead: bool, canWrite: bool, canDelete: bool)
  const UP := Redis(true, true, true)

  /**
   `Ask` is a gated call: what it asks, whether a customer line is there at all, and which remembered
   requests the conversation agrees to. `Withdraw` refuses once while a remembered request stands in its way.
   */
  datatype Call<!P> =
    | Ask(asked: P, hasLine: bool, agreed: P -> bool, redis: Redis)
    | Withdraw(blocks: P -> bool, redis: Redis)
    | Lapse
    | Unrelated

  datatype Answer = Proceed | Refuse

  function Cleared<P>(record: Option<P>, redis: Redis): Option<P> {
    if redis.canDelete then None else record
  }

  /** No customer line, or a store that cannot answer: the gate fails open. */
  function Step<P>(record: Option<P>, c: Call<P>): (Option<P>, Answer) {
    match c
    case Ask(asked, hasLine, agreed, redis) =>
      if !hasLine || !redis.canRead then (record, Proceed)
      else if record.Some? && agreed(record.value) then (Cleared(record, redis), Proceed)
      else if redis.canWrite then (Some(asked), Refuse)
      else (record, Proceed)
    case Withdraw(blocks, redis) =>
      if redis.canRead && record.Some? && blocks(record.value) then (Cleared(record, redis), Refuse)
        else (record, Proceed)
    case Lapse => (None, Proceed)
    case Unrelated => (record, Proceed)
  }

  /** The record after the first `n` calls of a conversation that began with none. */
  function After<P>(calls: seq<Call<P>>, n: nat): Option<P>
    requires n <= |calls|
  {
    if n == 0 then None else Step(After(calls, n - 1), calls[n - 1]).0
  }

  predicate Refused<P>(calls: seq<Call<P>>, i: int) {
    0 <= i < |calls| && Step(After(calls, i), calls[i]).1 == Refuse
  }

  /** The call leaves a remembered `asked` standing: it never gets to the record, or the store fails it there. */
  predicate Spares<P>(c: Call<P>, asked: P) {
    match c
    case Ask(_, hasLine, agreed, redis) =>
      !hasLine || !redis.canRead || if agreed(asked) then !redis.canDelete else !redis.canWrite
    case Withdraw(blocks, redis) => !redis.canRead || !blocks(asked) || !redis.canDelete
    case Lapse => false
    case Unrelated => true
  }

  /** Call `j` is the refused request that wrote the record, and every call since then left it standing. */
  predicate Wrote<P>(calls: seq<Call<P>>, j: int, n: int) {
    && 0 <= j < n <= |calls| && calls[j].Ask? && Refused(calls, j)
    && (forall m :: j < m < n ==> Spares(calls[m], calls[j].asked))
  }

  /** However often the store fails: a record stands exactly when some refused request wrote it, and it is that one. */
  lemma {:induction false} RecordHasWriter<P>(calls: seq<Call<P>>, n: nat)
    requires n <= |calls|
    ensures After(calls, n).Some? ==> exists j :: Wrote(calls, j, n) && calls[j].asked == After(calls, n).value
  {
    if n > 0 && After(calls, n).Some? {
      RecordHasWriter(calls, n - 1);
      if calls[n - 1].Ask? && Refused(calls, n - 1) {
        assert Wrote(calls, n - 1, n);
      } else {
        var j :| Wrote(calls, j, n - 1) && calls[j].asked == After(calls, n - 1).value;
        assert Wrote(calls, j, n);
      }
    }
  }

  lemma {:induction false} WriterHasRecord<P>(calls: seq<Call<P>>, j: int, n: int)
    requires Wrote(calls, j, n)
    ensures After(calls, n) == Some(calls[j].asked)
  {
    if j < n - 1 {
      assert Wrote(calls, j, n - 1);
      WriterHasRecord(calls, j, n - 1);
      assert Spares(calls[n - 1], calls[j].asked);
    }
  }

  /**
   A request passes exactly when no customer line came with it, the store fails it, or it agrees to the
   refused request that was last remembered.
   */
  lemma PassesExactlyWhenAgreed<P>(calls: seq<Call<P>>, i: nat)
    requires i < |calls| && calls[i].Ask?
    ensures !Refused(calls, i) <==>
      || !calls[i].hasLine || !calls[i].redis.canRead || !calls[i].redis.canWrite
      || exists j :: Wrote(calls, j, i) && calls[i].agreed(calls[j].asked)
  {
    if After(calls, i).Some? {
      RecordHasWriter(calls, i);
      var j :| Wrote(calls, j, i) && calls[j].asked == After(calls, i).value;
    }
    if j :| Wrote(calls, j, i) && calls[i].agreed(calls[j].asked) {
      WriterHasRecord(calls, j, i);
    }
  }

  /** The store answered, and the request was let through on the customer's word. */
  predicate PassedOnAgreement<P>(calls: seq<Call<P>>, i: nat)
    requires i < |calls|
  {
    calls[i].Ask? && calls[i].hasLine && calls[i].redis.canRead && calls[i].redis.canWrite && !Refused(calls, i)
  }

  /**
   An agreement serves once: between two requests let through on the customer's word one was refused, as
   long as the first could be deleted from the store.
   */
  lemma AgreementServesOnce<P>(calls: seq<Call<P>>, i: nat, k: nat)
    requires i < k < |calls| && PassedOnAgreement(calls, i) && PassedOnAgreement(calls, k)
    requires calls[i].redis.canDelete
    ensures exists j :: i < j < k && calls[j].Ask? && Refused(calls, j)
  {
    PassesExactlyWhenAgreed(calls, k);
    var j :| Wrote(calls, j, k) && calls[k].agreed(calls[j].asked);
    if j < i {
      WriterHasRecord(calls, j, i + 1);
    }
  }

  /** A deletion that fails leaves the agreement standing: the same request passes again right after. */
  lemma UndeletedServesAgain<P>(calls: seq<Call<P>>, i: nat)
    requires i + 1 < |calls| && PassedOnAgreement(calls, i) && !calls[i].redis.canDelete
    requires calls[i + 1] == calls[i]
    ensures PassedOnAgreement(calls, i + 1)
  {
    assert After(calls, i + 1) == After(calls, i);
  }

  /**
   Between two refusals on account of a remembered request, one was asked and refused again, if the first was
   deleted.
   */
  lemma WithdrawsOncePerRecord<P>(calls: seq<Call<P>>, i: nat, k: nat)
    requires i < k < |calls|
    requires calls[i].Withdraw? && Refused(calls, i) && calls[i].redis.canDelete
    requires calls[k].Withdraw? && Refused(calls, k)
    ensures exists j :: i < j < k && calls[j].Ask? && Refused(calls, j)
  {
    RecordHasWriter(calls, k);
    var j :| Wrote(calls, j, k) && calls[j].asked == After(calls, k).value;
    if j < i {
      WriterHasRecord(calls, j, i + 1);
    }
  }
}
