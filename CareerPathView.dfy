/** The career path: each intermediate step, numbered, with its readiness
    classification and status badge. */
module CareerPathView {
  import opened AppTypes
  import opened Ui

  predicate IsReady(readiness: int) {
    readiness >= 85
  }

  predicate IsAlmostReady(readiness: int) {
    readiness >= 70
  }

  /** A ready step is always almost ready as well. */
  lemma ReadyIsAlmostReady(readiness: int)
    ensures IsReady(readiness) ==> IsAlmostReady(readiness)
    ensures IsAlmostReady(readiness) && !IsReady(readiness) <==> 70 <= readiness < 85
  {
  }

  /** The status badge: label, variant and extra class. */
  datatype StatusBadge = StatusBadge(text: string, variant: BadgeVariant, className: string)

  const ReadyToApply := StatusBadge("Ready to Apply", Default, "bg-green-600")
  const AlmostReady := StatusBadge("Almost Ready", Default, "bg-blue-600")
  const BuildMoreSkills := StatusBadge("Build More Skills", Secondary, "")

  function Badge(readiness: int): (b: StatusBadge)
    ensures b == ReadyToApply <==> IsReady(readiness)
    ensures b == AlmostReady <==> IsAlmostReady(readiness) && !IsReady(readiness)
    ensures b == BuildMoreSkills <==> !IsAlmostReady(readiness)
  {
    if IsReady(readiness) then ReadyToApply
    else if IsAlmostReady(readiness) then AlmostReady
    else BuildMoreSkills
  }

  /** One rendered step. */
  datatype StepCard = StepCard(
    number: nat,
    role: string,
    cardClass: string,
    checkIcon: bool,
    badge: StatusBadge,
    skillsSection: bool)

  function RenderStep(step: CareerStep, index: nat): (c: StepCard)
    ensures c.number == index + 1 && c.role == step.role
    ensures c.cardClass == (if IsReady(step.readiness) then "border-green-500 bg-green-50" else "")
    ensures c.checkIcon <==> IsReady(step.readiness)
    ensures c.checkIcon <==> c.badge == ReadyToApply
    ensures c.badge == Badge(step.readiness)
    ensures c.skillsSection <==> |step.skillsNeeded| > 0
  {
    StepCard(index + 1, step.role,
             if IsReady(step.readiness) then "border-green-500 bg-green-50" else "",
             IsReady(step.readiness), Badge(step.readiness), |step.skillsNeeded| > 0)
  }

  /** `intermediateSteps.map((step, index) => ...)`, from a starting index. */
  function RenderSteps(steps: seq<CareerStep>, from: nat): (cs: seq<StepCard>)
    ensures |cs| == |steps|
    ensures forall i :: 0 <= i < |steps| ==> cs[i] == RenderStep(steps[i], from + i)
  {
    if steps == [] then [] else [RenderStep(steps[0], from)] + RenderSteps(steps[1..], from + 1)
  }

  /** The steps of a path, numbered 1, 2, ... in the order given. */
  function Render(path: CareerPath): (cs: seq<StepCard>)
    ensures |cs| == |path.intermediateSteps|
    ensures forall i :: 0 <= i < |cs| ==> cs[i] == RenderStep(path.intermediateSteps[i], i)
    ensures forall i :: 0 <= i < |cs| ==> cs[i].number == i + 1 && cs[i].role == path.intermediateSteps[i].role
  {
    RenderSteps(path.intermediateSteps, 0)
  }
}
