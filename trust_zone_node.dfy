/**
 * The trust zone node (client/src/features/editor/nodes/TrustZoneNode.tsx): the average
 * risk badge each zone shows in its header.
 */
module TrustZoneNode {
  import opened Wrappers
  import opened Diagram

  /** `data.risk || { confidentiality: 0, integrity: 0, availability: 0 }` */
  function ZoneRisk(data: NodeData): Risk {
    data.risk.GetOr(FullRisk(0, 0, 0))
  }

  /** JavaScript's `Math.round`: the nearest integer, halves rounded up. */
  function Round(x: real): int {
    (x + 0.5).Floor
  }

  /**
   * `Math.round((c + i + a) / 3)`. A risk object that lacks a dimension makes the sum
   * `NaN`, shown as `None` here.
   */
  function AverageRisk(data: NodeData): Option<int> {
    var r := ZoneRisk(data);
    if r.Complete() then
      Some(Round(((r.confidentiality.value + r.integrity.value + r.availability.value) as real) / 3.0))
    else None
  }

  function RiskSum(r: Risk): int
    requires r.Complete()
  {
    r.confidentiality.value + r.integrity.value + r.availability.value
  }

  /** The badge is red when the average exceeds 70 (`NaN > 70` is false). */
  predicate Highlighted(data: NodeData) {
    var avg := AverageRisk(data);
    avg.Some? && avg.value > 70
  }

  /** Rounding a third of an integer is integer division with one added first. */
  lemma {:induction false} RoundThird(s: int)
    ensures Round((s as real) / 3.0) == (s + 1) / 3
  {
    var q := (s + 1) / 3;
    var m := (s + 1) % 3;
    assert s + 1 == 3 * q + m && 0 <= m < 3;
    var x := (s as real) / 3.0 + 0.5;
    assert x == q as real + (m as real) / 3.0 + 1.0 / 6.0;
    assert q as real <= x < q as real + 1.0;
  }

  /** The badge shows the average of the three ratings rounded to the nearest integer, and nothing numeric when one is missing. */
  lemma {:induction false} AverageRiskValue(data: NodeData)
    ensures ZoneRisk(data).Complete() ==> AverageRisk(data) == Some((RiskSum(ZoneRisk(data)) + 1) / 3)
    ensures !ZoneRisk(data).Complete() <==> AverageRisk(data).None?
    ensures data.risk.None? ==> AverageRisk(data) == Some(0)
  {
    var r := ZoneRisk(data);
    if r.Complete() {
      RoundThird(RiskSum(r));
    }
  }

  /** Ratings within 0..100 give an average within 0..100. */
  lemma {:induction false} AverageRiskBounds(data: NodeData)
    requires ZoneRisk(data).Complete()
    requires forall d :: 0 <= ZoneRisk(data).Get(d).value <= 100
    ensures AverageRisk(data).Some? && 0 <= AverageRisk(data).value <= 100
  {
    AverageRiskValue(data);
    var r := ZoneRisk(data);
    assert 0 <= r.Get(Confidentiality).value <= 100;
    assert 0 <= r.Get(Integrity).value <= 100;
    assert 0 <= r.Get(Availability).value <= 100;
  }

  /** The badge turns red exactly when the three ratings add up to 212 or more. */
  lemma {:induction false} HighlightThreshold(data: NodeData)
    ensures Highlighted(data) <==> ZoneRisk(data).Complete() && RiskSum(ZoneRisk(data)) >= 212
  {
    AverageRiskValue(data);
  }
}
