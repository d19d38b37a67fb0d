/**
  What each step does to one record and one thread of the ConVar service, in both directions.
 */
module ConVarEffects {
  import opened ConVarRelease

  predicate Makes(s: Service, step: Step, c: nat) {
    c == s.next && (step.Find? || (step.Create? && step.made))
  }

  /** A record is there once it was made, under the name asked for, live and switched off. */
  lemma MadeIff(s: Service, step: Step, c: nat)
    requires Known(s) && Enabled(s, step)
    ensures c in Apply(s, step).records <==> c in s.records || Makes(s, step, c)
    ensures Makes(s, step, c) ==>
      c !in s.records && Apply(s, step).records[c] == Record(step.key, step.Create?, true, false, 0, 0, 0)
  {
  }

  predicate OfFrame(s: Service, f: nat, c: nat) {
    f in s.frames && s.frames[f].c == c
  }

  /** It keeps its name, and is listed and switched until its release takes it off, or someone switches it. */
  lemma RecordIff(s: Service, step: Step, c: nat)
    requires Known(s) && Enabled(s, step) && c in s.records
    ensures c in Apply(s, step).records
    ensures Apply(s, step).records[c].key == s.records[c].key && Apply(s, step).records[c].created == s.records[c].created
    ensures Apply(s, step).records[c].listed <==> s.records[c].listed && !(step.ReleaseErase? && OfFrame(s, step.f, c))
    ensures Apply(s, step).records[c].enabled <==>
      if step.Enable? && step.c == c then step.on
      else s.records[c].enabled && !(step.ReleaseBegin? && step.c == c && s.records[c].state == 0)
  {
  }

  /** A body runs on a thread from the check, or the direct call, that let it in, until it finishes. */
  lemma RunsIff(s: Service, step: Step, f: nat, c: nat)
    requires Enabled(s, step)
    ensures f in Apply(s, step).frames && Apply(s, step).frames[f] == Running(c) <==>
      || (step == Check(f) && s.frames[f] == Entered(c) && s.records[c].enabled && s.records[c].state == 0)
      || step == Invoke(f, c)
      || (f in s.frames && s.frames[f] == Running(c) && step != Finish(f))
  {
  }

  /** A release returns OK exactly when its own thread ends it, or a thread that waited sees it ended. */
  lemma DoneIff(s: Service, step: Step, c: nat)
    requires Enabled(s, step)
    ensures c in Apply(s, step).done <==>
      c in s.done || ((step.ReleaseEnd? || step.AwaitEnd?) && OfFrame(s, step.f, c))
  {
  }
}
