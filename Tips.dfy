/**
  The rotating health-tip banner: a fixed list of five tips and an index that a
  timer advances by one, wrapping from the last tip back to the first.
 */
module Tips {

  const HealthTips: seq<string> := [
    "Regular exercise can help maintain a healthy BMI",
    "Stay hydrated! Drink at least 8 glasses of water daily",
    "Get 7-9 hours of sleep for optimal health",
    "Eat a balanced diet rich in fruits and vegetables",
    "Take regular breaks from sitting to stay active"
  ]

  /** `(prev + 1) % healthTips.length` */
  function NextTip(i: nat): (r: nat)
    ensures r < |HealthTips|
    ensures i + 1 < |HealthTips| ==> r == i + 1
    ensures i + 1 == |HealthTips| ==> r == 0
  {
    (i + 1) % |HealthTips|
  }

  /** The index after `n` timer ticks starting from `i`. */
  function AfterTicks(i: nat, n: nat): nat
  {
    if n == 0 then i else NextTip(AfterTicks(i, n - 1))
  }

  /** Starting in range, `n` ticks move the index `n` places round the list. */
  lemma {:induction false} AfterTicksRotates(i: nat, n: nat)
    requires i < |HealthTips|
    ensures AfterTicks(i, n) == (i + n) % |HealthTips|
  {
    if n > 0 {
      AfterTicksRotates(i, n - 1);
    }
  }

  /** Every index the banner reaches is in range, and five ticks bring it back. */
  lemma TipsCycle(i: nat, n: nat)
    requires i < |HealthTips|
    ensures AfterTicks(i, n) < |HealthTips|
    ensures AfterTicks(i, |HealthTips|) == i
  {
    AfterTicksRotates(i, n);
    AfterTicksRotates(i, |HealthTips|);
  }
}
