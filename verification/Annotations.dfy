/** What makes Cert-Manager recognise a control Ingress stays on it: over whole runs, no step takes the
    template's annotations from an Ingress that has them, and every new Ingress has them. */
module Annotations {
  import opened TLS
  import opened Clusters
  import opened Protocol
  import opened Safety
  import opened Runs

  /** Every annotation of the settings, with its value. */
  predicate HasBase(cfg: Settings, ingress: ControlIngress) {
    forall a :: a in cfg.base ==> a in ingress.annotations && ingress.annotations[a] == cfg.base[a]
  }

  /** If the Ingress is there, it has them. */
  predicate CarriesBase(cfg: Settings, control: Control, name: string) {
    name in control.ingresses ==> HasBase(cfg, control.ingresses[name])
  }

  lemma RunCarries(c: Config, s: State, key: TargetKey, copy: CopyResult, f: Faults, name: string)
    requires CarriesBase(c.settings, s.b.control, name)
    ensures CarriesBase(c.settings, IngressRun(c, s, key, copy, f).broker.control, name)
  {}

  lemma SweepCarries(c: Config, s: State, swept: ManagedName, f: Faults, name: string)
    requires CarriesBase(c.settings, s.b.control, name)
    ensures CarriesBase(c.settings, CleanerRun(c, s, swept, f).control, name)
  {}

  lemma IngressStepCarries(c: Config, s: State, step: Step, name: string)
    requires Enabled(c, s, step) && step.Ingress? && CarriesBase(c.settings, s.b.control, name)
    ensures CarriesBase(c.settings, Next(c, s, step).b.control, name)
  {
    if step.iact.Run? {
      RunCarries(c, s, s.ingress.workers[step.iact.w].key, step.copy, step.f, name);
    }
  }

  lemma CleanerStepCarries(c: Config, s: State, step: Step, name: string)
    requires Enabled(c, s, step) && step.Cleaner? && CarriesBase(c.settings, s.b.control, name)
    ensures CarriesBase(c.settings, Next(c, s, step).b.control, name)
  {
    if step.cact.Run? {
      CleanerRunIsNext(c, s, step);
      SweepCarries(c, s, s.cleaner.workers[step.cact.w].key, step.f, name);
    }
  }

  lemma StepCarries(c: Config, s: State, step: Step, name: string)
    requires Enabled(c, s, step) && CarriesBase(c.settings, s.b.control, name)
    ensures CarriesBase(c.settings, Next(c, s, step).b.control, name)
  {
    match step
    case Ingress(_, _, _) => IngressStepCarries(c, s, step, name);
    case Cleaner(_, _) => CleanerStepCarries(c, s, step, name);
    case _ =>
  }

  /** A control Ingress that has been created during a run, by whichever worker, has every annotation of
      the settings in every later state in which it is there, whatever updates and overwrites it met. */
  lemma CreatedIsRecognised(c: Config, states: seq<State>, steps: seq<Step>, i: nat, j: nat, name: string)
    requires IsRun(c, states, steps) && i <= j < |states|
    requires name !in states[i].b.control.ingresses && name in states[j].b.control.ingresses
    ensures c.settings.base.Items <= states[j].b.control.ingresses[name].annotations.Items
  {
    var inv, later := (s: State) => CarriesBase(c.settings, s.b.control, name), states[i..j + 1];
    forall k: nat | k + 1 < |later| ensures Carried(inv, later, k) {
      assert StepAt(c, states, steps, i + k);
      if inv(later[k]) {
        StepCarries(c, states[i + k], steps[i + k], name);
      }
    }
    Invariantly(inv, later, j - i);
  }
}
