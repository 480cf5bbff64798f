/**
 The dialogs an extension puts to the owner: asked once, and resolved once,
 however an answer, an interrupt, the end of the turn and the death of the
 process race each other.
 */
module PiDialogs {

  // A step is one critical section or one publication, so whoever takes a dialog
  // out of the pending ones may publish its resolution any number of steps later,
  // and so may whoever put it there publish its request.

  datatype Publication = Requested(id: string) | Resolved(id: string)

  /** `asked` are the dialogs that came, `requesting` those among them whose
      request is not published yet; `resolving` are taken and not published. */
  datatype Dialogs = Dialogs(
    asked: seq<string>, requesting: set<string>, pending: set<string>, resolving: multiset<string>,
    published: seq<Publication>)

  const NONE_YET := Dialogs([], {}, {}, multiset{}, [])

  datatype Step =
    | Ask(id: string)
    | Request(id: string)
    | Respond(id: string)
    | CancelPending
    | Resolve(id: string)

  /** Pi never asks under an id it has used before. */
  predicate Enabled(s: Dialogs, step: Step) {
    match step
    case Ask(id) => id !in s.asked
    case Request(id) => id in s.requesting
    case Resolve(id) => id in s.resolving
    case _ => true
  }

  function Apply(s: Dialogs, step: Step): Dialogs
    requires Enabled(s, step)
  {
    match step
    case Ask(id) => s.(asked := s.asked + [id], requesting := s.requesting + {id}, pending := s.pending + {id})
    case Request(id) => s.(requesting := s.requesting - {id}, published := s.published + [Requested(id)])
    case Respond(id) =>
      if id in s.pending then s.(pending := s.pending - {id}, resolving := s.resolving + multiset{id}) else s
    case CancelPending => s.(pending := {}, resolving := s.resolving + multiset(s.pending))
    case Resolve(id) => s.(resolving := s.resolving - multiset{id}, published := s.published + [Resolved(id)])
  }

  predicate Legal(steps: seq<Step>)
    decreases |steps|, 0
  {
    steps == [] ||
    (Legal(steps[..|steps| - 1]) && Enabled(After(steps[..|steps| - 1]), steps[|steps| - 1]))
  }

  function After(steps: seq<Step>): Dialogs
    requires Legal(steps)
    decreases |steps|, 1
  {
    if steps == [] then NONE_YET else Apply(After(steps[..|steps| - 1]), steps[|steps| - 1])
  }

  /** Whether an answer is the one that counts; any other is told the dialog is
      not pending. */
  predicate Wins(s: Dialogs, step: Step, id: string) {
    step == Respond(id) && id in s.pending
  }

  function Winners(steps: seq<Step>, id: string): nat
    requires Legal(steps)
  {
    if steps == [] then 0
    else
      var before := steps[..|steps| - 1];
      Winners(before, id) + if Wins(After(before), steps[|steps| - 1], id) then 1 else 0
  }

  // ------------------------------------------------------------- accounting

  /** Every dialog that came is pending, on its way, or resolved, and only one of
      them; its request is published or still to be. */
  ghost predicate Accounted(s: Dialogs) { forall id :: AccountedFor(s, id) }

  /** In how many of the three places a dialog is, and how often. */
  function Where(s: Dialogs, id: string): nat {
    (if id in s.pending then 1 else 0) + s.resolving[id] + multiset(s.published)[Resolved(id)]
  }

  ghost predicate AccountedFor(s: Dialogs, id: string) {
    && Where(s, id) == multiset(s.asked)[id] <= 1
    && multiset(s.published)[Requested(id)] + (if id in s.requesting then 1 else 0) == multiset(s.asked)[id]
  }

  lemma AskAccounted(s: Dialogs, asked: string, id: string)
    requires AccountedFor(s, id) && asked !in s.asked
    ensures AccountedFor(Apply(s, Ask(asked)), id)
  {
    assert multiset(s.asked + [asked]) == multiset(s.asked) + multiset{asked};
    assert id in s.asked <==> multiset(s.asked)[id] > 0;
  }

  lemma PublishAccounted(s: Dialogs, step: Step, id: string)
    requires AccountedFor(s, id) && Enabled(s, step) && (step.Request? || step.Resolve?)
    ensures AccountedFor(Apply(s, step), id)
  {
    var p := if step.Request? then Requested(step.id) else Resolved(step.id);
    assert multiset(s.published + [p]) == multiset(s.published) + multiset{p};
  }

  lemma StepAccounted(s: Dialogs, step: Step)
    requires Accounted(s) && Enabled(s, step)
    ensures Accounted(Apply(s, step))
  {
    forall id ensures AccountedFor(Apply(s, step), id) {
      assert AccountedFor(s, id);
      match step {
        case Ask(asked) => AskAccounted(s, asked, id);
        case Request(_) | Resolve(_) => PublishAccounted(s, step, id);
        case _ =>
      }
    }
  }

  lemma {:induction false} AlwaysAccounted(steps: seq<Step>)
    requires Legal(steps)
    ensures Accounted(After(steps))
  {
    if steps != [] {
      AlwaysAccounted(steps[..|steps| - 1]);
      StepAccounted(After(steps[..|steps| - 1]), steps[|steps| - 1]);
    }
  }

  /** No dialog is requested or resolved twice, or is in two places; and once
      nothing is pending or on its way, each that came has been both. */
  lemma ResolvedExactlyOnce(steps: seq<Step>, id: string)
    requires Legal(steps)
    ensures var s := After(steps);
      var requested, resolved := multiset(s.published)[Requested(id)], multiset(s.published)[Resolved(id)];
      && requested <= 1 && resolved <= 1
      && !(id in s.pending && id in s.resolving)
      && (resolved == 1 ==> id !in s.pending && id !in s.resolving)
      && (id !in s.pending && id !in s.resolving && id !in s.requesting ==>
            requested == resolved == if id in s.asked then 1 else 0)
  {
    AlwaysAccounted(steps);
    var s := After(steps);
    assert AccountedFor(s, id);
    assert id in s.asked <==> multiset(s.asked)[id] > 0;
  }

  /** A dialog no longer pending has been asked, so it can never be again. */
  lemma {:induction false} WinnersAreTaken(steps: seq<Step>, id: string)
    requires Legal(steps)
    ensures Winners(steps, id) <= 1
    ensures Winners(steps, id) == 1 ==> id in After(steps).asked && id !in After(steps).pending
  {
    if steps != [] {
      var before := steps[..|steps| - 1];
      WinnersAreTaken(before, id);
      AlwaysAccounted(before);
      PendingIsAsked(After(before), id);
    }
  }

  lemma PendingIsAsked(s: Dialogs, id: string)
    requires Accounted(s)
    ensures id in s.pending || id in s.resolving || id in s.requesting ==> id in s.asked
  {
    assert AccountedFor(s, id);
    assert id in s.asked <==> multiset(s.asked)[id] > 0;
  }

  /** Of all the answers racing for one dialog, at most one wins. */
  lemma AnswersNeverBothWin(steps: seq<Step>, id: string)
    requires Legal(steps)
    ensures Winners(steps, id) <= 1
  {
    WinnersAreTaken(steps, id);
  }

  // ------------------------------------------------- requests and resolutions

  /** No resolution is published but after the request it belongs to. */
  ghost predicate InOrder(published: seq<Publication>) {
    forall i | 0 <= i < |published| && published[i].Resolved? :: Requested(published[i].id) in published[..i]
  }

  /** Nobody resolves a dialog between its coming and its request. */
  ghost predicate Patient(steps: seq<Step>)
    requires Legal(steps)
  {
    steps == [] ||
      (var before := steps[..|steps| - 1];
       Patient(before) && (steps[|steps| - 1].Resolve? ==> steps[|steps| - 1].id !in After(before).requesting))
  }

  lemma InOrderSnoc(published: seq<Publication>, p: Publication)
    ensures InOrder(published + [p]) <==> InOrder(published) && (p.Resolved? ==> Requested(p.id) in published)
  {
    var longer := published + [p];
    forall i | 0 <= i < |published| ensures longer[..i] == published[..i] {
    }
    assert longer[..|published|] == published && longer[|published|] == p;
    if InOrder(longer) {
      forall i | 0 <= i < |published| && published[i].Resolved? ensures Requested(published[i].id) in published[..i] {
        assert longer[i] == published[i];
      }
    }
  }

  /** What the browser sees is in order exactly in the runs where nobody resolves
      a dialog whose request is still to be published. */
  lemma {:induction false} InOrderIfPatient(steps: seq<Step>)
    requires Legal(steps)
    ensures InOrder(After(steps).published) <==> Patient(steps)
  {
    if steps != [] {
      var before, step := steps[..|steps| - 1], steps[|steps| - 1];
      var s := After(before);
      InOrderIfPatient(before);
      match step {
        case Request(id) => InOrderSnoc(s.published, Requested(id));
        case Resolve(id) =>
          InOrderSnoc(s.published, Resolved(id));
          AlwaysAccounted(before);
          PendingIsAsked(s, id);
          assert AccountedFor(s, id) && s.resolving[id] > 0;
          assert Requested(id) in s.published <==> multiset(s.published)[Requested(id)] > 0;
        case _ =>
      }
    }
  }

  lemma OneMore(steps: seq<Step>, step: Step)
    requires Legal(steps) && Enabled(After(steps), step)
    ensures Legal(steps + [step]) && After(steps + [step]) == Apply(After(steps), step)
  {
    assert (steps + [step])[..|steps|] == steps;
  }

  /** An interrupt that comes between does it. */
  lemma ResolvedBeforeRequested(id: string)
    ensures var steps := [Ask(id), CancelPending, Resolve(id), Request(id)];
      Legal(steps) && After(steps).published == [Resolved(id), Requested(id)]
  {
    var asked := Apply(NONE_YET, Ask(id));
    OneMore([], Ask(id));
    assert [] + [Ask(id)] == [Ask(id)];
    var taken := Apply(asked, CancelPending);
    OneMore([Ask(id)], CancelPending);
    assert [Ask(id)] + [CancelPending] == [Ask(id), CancelPending];
    assert id in asked.pending && taken.resolving == multiset(asked.pending) && id in taken.resolving;
    OneMore([Ask(id), CancelPending], Resolve(id));
    assert [Ask(id), CancelPending] + [Resolve(id)] == [Ask(id), CancelPending, Resolve(id)];
    OneMore([Ask(id), CancelPending, Resolve(id)], Request(id));
    assert [Ask(id), CancelPending, Resolve(id)] + [Request(id)] == [Ask(id), CancelPending, Resolve(id), Request(id)];
  }

  // ------------------------------------------------------------ what is pending

  /** A step that answers a dialog or takes it away. */
  predicate Takes(step: Step, id: string) { step == Respond(id) || step == CancelPending }

  /** The dialog was asked with that step, and nothing has taken it since. */
  ghost predicate AskedAt(steps: seq<Step>, id: string, k: nat) {
    k < |steps| && steps[k] == Ask(id) && forall i | k < i < |steps| :: !Takes(steps[i], id)
  }

  lemma AskedSnoc(steps: seq<Step>, step: Step, id: string)
    ensures (exists k: nat :: AskedAt(steps + [step], id, k)) <==>
              step == Ask(id) || (!Takes(step, id) && exists k: nat :: AskedAt(steps, id, k))
  {
    var longer := steps + [step];
    assert longer[|steps|] == step && forall i | 0 <= i < |steps| :: longer[i] == steps[i];
    if step == Ask(id) {
      assert AskedAt(longer, id, |steps|);
    } else if !Takes(step, id) && exists k: nat :: AskedAt(steps, id, k) {
      var k: nat :| AskedAt(steps, id, k);
      assert AskedAt(longer, id, k);
    }
    if exists k: nat :: AskedAt(longer, id, k) {
      var k: nat :| AskedAt(longer, id, k);
      assert k < |steps| ==> AskedAt(steps, id, k) && !Takes(longer[|steps|], id);
    }
  }

  /** A dialog is pending exactly if it was asked and nothing has taken it since. */
  lemma {:induction false} PendingSince(steps: seq<Step>, id: string)
    requires Legal(steps)
    ensures id in After(steps).pending <==> exists k: nat :: AskedAt(steps, id, k)
  {
    if steps != [] {
      var before, step := steps[..|steps| - 1], steps[|steps| - 1];
      PendingSince(before, id);
      AskedSnoc(before, step, id);
      assert steps == before + [step];
    }
  }
}
