/** Why an Ack, Nack or ExtendVisibility matched no row. */
module Claims {
  import opened Basics
  import opened Lease

  datatype Reason = MessageNotFound | MessageAlreadyAcked | ClaimExpired

  datatype Outcome = Settled | Missed(reason: Reason)

  function ClassifyClaimState(found: bool, status: Status, claim: Option<Uuid>, expected: Uuid): Reason {
    if !found then MessageNotFound
    else if expected == NIL then MessageAlreadyAcked
    else if claim == Some(expected) && status != Processing then MessageAlreadyAcked
    else ClaimExpired
  }

  /** The classifying SELECT for row `k`. */
  function Classify(t: Table, k: Uuid, expected: Uuid): Reason {
    if k in t.rows then ClassifyClaimState(true, t.rows[k].status, t.rows[k].claim, expected)
    else ClassifyClaimState(false, Pending, None, expected)
  }

  /** The UPDATE and the classifying SELECT take separate READ COMMITTED snapshots, so any run may
      come between them. For a claim that was really issued, the reported reason is nevertheless
      exact at the later snapshot: the fall-through never reports a row the caller still holds. */
  lemma MissIsExplained(t: Table, gap: seq<Action>, k: Uuid, claim: Uuid)
    requires Inv(t) && claim in t.minted && !Owns(t, k, claim)
    ensures var t' := Run(t, gap);
            var reason := Classify(t', k, claim);
            && (reason == MessageNotFound <==> k !in t'.rows)
            && (reason == MessageAlreadyAcked <==> k in t'.rows && t'.rows[k].status == Done && t'.rows[k].claim == Some(claim))
            && (reason == ClaimExpired <==> k in t'.rows && t'.rows[k].claim != Some(claim))
  {
    Fenced(t, gap, k, claim);
    RunKeepsInv(t, gap);
    if k in Run(t, gap).rows {
      assert LeaseOk(Run(t, gap).rows[k], Run(t, gap).now);
    }
  }

  /** A receipt that never carried a claim is never reported as expired. */
  lemma ZeroClaimIsNeverExpired(t: Table, k: Uuid)
    requires Inv(t)
    ensures !Owns(t, k, NIL) && Classify(t, k, NIL) != ClaimExpired
  {
  }

  /** Being issued is needed: a token invented by the caller can be minted for the row in the gap,
      and the SELECT then reports ClaimExpired although the row is held under exactly that token. */
  lemma ForgedClaimCanBeMisreported()
    ensures exists before, gap, k, claim ::
              var t := Run(Empty(0), before);
              claim != NIL && !Owns(t, k, claim) && Owns(Run(t, gap), k, claim) && Classify(Run(t, gap), k, claim) == ClaimExpired
  {
    var before, gap := [Insert(5, 3)], [Claim(5, 9, 30)];
    assert before[..0] == [] && gap[..0] == [];
    var t := Run(Empty(0), before);
    assert t == Apply(Run(Empty(0), []), before[0]);
    assert Run(t, gap) == Apply(Run(t, []), gap[0]);
    assert Owns(Run(t, gap), 5, 9) && !Owns(t, 5, 9);
    assert Classify(Run(t, gap), 5, 9) == ClaimExpired;
  }
}
