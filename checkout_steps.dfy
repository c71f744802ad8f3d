/** The step indicator shown above every checkout stage
    (src/components/CheckoutSteps.tsx): five steps, each drawn as
    completed, active or pending against the stage's own position. */
module CheckoutSteps {
  import opened Outcomes

  datatype Step = Step(caption: string, icon: string)

  /** Cart, Address, Payment, Pay, Done, with their icons. */
  const Steps: seq<Step> := [
    Step("Cart", "\U{1F6D2}"),
    Step("Address", "\U{1F4CD}"),
    Step("Payment", "\U{1F4B3}"),
    Step("Pay", "\U{1F510}"),
    Step("Done", "\U{2705}")
  ]

  const Tick: string := "\U{2713}"

  /** The circle's colouring: green, orange (enlarged), or grey. */
  datatype Circle = Completed | Active | Pending

  /** The bar drawn after a step: green or grey. */
  datatype Connector = Green | Grey

  /** One rendered step: its circle, what the circle shows, whether the
      label is in the dark colour, and the connector after it (none after
      the last step). */
  datatype StepView = StepView(caption: string, circle: Circle, badge: string,
                               highlighted: bool, connector: Option<Connector>)

  function ViewAt(i: nat, current: int): StepView
    requires i < |Steps|
  {
    var circle := if i < current then Completed else if i == current then Active else Pending;
    var badge := if i < current then Tick else Steps[i].icon;
    var connector := if i < |Steps| - 1 then Some(if i < current then Green else Grey) else None;
    StepView(Steps[i].caption, circle, badge, i <= current, connector)
  }

  /** `steps.map((step, i) => ...)` for the stage at position `current`:
      a step before it is completed (a tick, in green), the step at it is
      active, the ones after it pending; a label is highlighted up to and
      including the current step; every step but the last has a connector,
      green exactly when the step is completed. */
  function Render(current: int): (r: seq<StepView>)
    ensures |r| == |Steps| == 5
    ensures forall i :: 0 <= i < |r| ==> r[i].caption == Steps[i].caption
    ensures forall i :: 0 <= i < |r| ==>
      (r[i].circle == Completed <==> i < current) && (r[i].circle == Active <==> i == current)
      && (r[i].badge == Tick <==> i < current)
      && (i >= current ==> r[i].badge == Steps[i].icon)
      && (r[i].highlighted <==> i <= current)
      && (r[i].connector.None? <==> i == |r| - 1)
      && (r[i].connector == Some(Green) <==> i < current && i < |r| - 1)
  {
    assert forall i :: 0 <= i < |Steps| ==> Steps[i].icon != Tick;
    seq(|Steps|, i requires 0 <= i < |Steps| => ViewAt(i, current))
  }

  /** The number of completed steps in a rendering. */
  function CompletedCount(r: seq<StepView>): nat {
    if r == [] then 0 else (if r[0].circle == Completed then 1 else 0) + CompletedCount(r[1..])
  }

  /** The number of active steps in a rendering. */
  function ActiveCount(r: seq<StepView>): nat {
    if r == [] then 0 else (if r[0].circle == Active then 1 else 0) + ActiveCount(r[1..])
  }

  function Clamp(n: int, lo: int, hi: int): int {
    if n < lo then lo else if n > hi then hi else n
  }

  /** Counting from step `k` on: the completed steps are those below
      `current`, and at most the one at `current` is active. */
  lemma {:induction false} CountsFrom(current: int, k: nat)
    requires k <= 5
    ensures CompletedCount(Render(current)[k..]) == Clamp(current, k, 5) - k
    ensures ActiveCount(Render(current)[k..]) == (if k <= current < 5 then 1 else 0)
    decreases 5 - k
  {
    var r := Render(current);
    if k < 5 {
      assert r[k..][1..] == r[k + 1..];
      CountsFrom(current, k + 1);
    }
  }

  /** At stage `current` the indicator shows `current` completed steps (none
      below zero, all five past the end), and exactly one active step when
      `current` is one of the five positions, none otherwise. */
  lemma StepCounts(current: int)
    ensures CompletedCount(Render(current)) == Clamp(current, 0, 5)
    ensures ActiveCount(Render(current)) == (if 0 <= current < 5 then 1 else 0)
  {
    CountsFrom(current, 0);
    assert Render(current)[0..] == Render(current);
  }

  /** The completed steps are always a prefix, followed by the active step
      and then only pending ones. */
  lemma CompletedPrefix(current: int, i: nat, j: nat)
    requires i < j < 5
    ensures Render(current)[j].circle == Completed ==> Render(current)[i].circle == Completed
    ensures Render(current)[i].circle == Pending ==> Render(current)[j].circle == Pending
    ensures Render(current)[i].circle == Active ==> Render(current)[j].circle == Pending
  {
  }
}
