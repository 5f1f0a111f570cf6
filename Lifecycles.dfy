/** The lifecycle resource: building a lifecycle (description, two retention
    policies, phases in order) and tracking its ID. */
module Lifecycles {
  import opened Common

  /** A retention policy as the service holds it. */
  datatype RetentionPeriod = RetentionPeriod(unit: string, quantityToKeep: int)

  /** One element of a retention-policy block as configured. It has the
      fields of RetentionPeriod, but it is the configuration's value, which
      GetRetentionPeriod turns into the service's. */
  datatype RetentionSetting = RetentionSetting(unit: string, quantityToKeep: int)

  /** A phase as sent to the service; None stands for Go's nil slice. */
  datatype Phase = Phase(
    name: string, minimumEnvironmentsBeforePromotion: int, isOptionalPhase: bool,
    automaticDeploymentTargets: Option<seq<string>>, optionalDeploymentTargets: Option<seq<string>>)

  /** One configured phase block; a missing target list is None. It has the
      fields of Phase, but it is the configuration's value: BuildPhase turns
      it into the service's, where both target lists are present. */
  datatype PhaseAttributes = PhaseAttributes(
    name: string, minimumEnvironmentsBeforePromotion: int, isOptionalPhase: bool,
    automaticDeploymentTargets: Option<seq<string>>, optionalDeploymentTargets: Option<seq<string>>)

  datatype Lifecycle = Lifecycle(
    id: string, name: string, description: string,
    releaseRetentionPolicy: RetentionPeriod, tentacleRetentionPolicy: RetentionPeriod, phases: seq<Phase>)

  /** The resource's attributes. An absent description is ""; each retention
      policy lists the elements of its set; an absent phase list is empty. */
  datatype LifecycleAttributes = LifecycleAttributes(
    name: string, description: string,
    releaseRetentionPolicy: seq<RetentionSetting>, tentacleRetentionPolicy: seq<RetentionSetting>,
    phases: seq<PhaseAttributes>)

  /** The client library's lifecycle constructor, which may refuse a name. */
  type LifecycleConstructor = string -> Result<Lifecycle, string>

  /** A policy is taken exactly when the block's set has one element, and
      it carries that element's unit and quantity. */
  function GetRetentionPeriod(settings: seq<RetentionSetting>): (r: Option<RetentionPeriod>)
    ensures r.Some? <==> |settings| == 1
    ensures r.Some? ==> r.value.unit == settings[0].unit && r.value.quantityToKeep == settings[0].quantityToKeep
  {
    if |settings| == 1 then Some(RetentionPeriod(settings[0].unit, settings[0].quantityToKeep)) else None
  }

  /** A list-typed phase attribute copied into a Go slice. */
  function SliceFromList(attr: Option<seq<string>>): (r: Option<seq<string>>)
    ensures r == attr
  {
    attr
  }

  /** Builds one phase: both target lists are present, an absent one becoming
      empty, and the other fields are copied. */
  function BuildPhase(p: PhaseAttributes): (r: Phase)
    ensures r.automaticDeploymentTargets == Some(p.automaticDeploymentTargets.GetOr([]))
    ensures r.optionalDeploymentTargets == Some(p.optionalDeploymentTargets.GetOr([]))
    ensures r.name == p.name && r.isOptionalPhase == p.isOptionalPhase
    ensures r.minimumEnvironmentsBeforePromotion == p.minimumEnvironmentsBeforePromotion
  {
    var phase := Phase(p.name, p.minimumEnvironmentsBeforePromotion, p.isOptionalPhase,
                       SliceFromList(p.automaticDeploymentTargets), SliceFromList(p.optionalDeploymentTargets));
    var phase := if phase.automaticDeploymentTargets.None? then phase.(automaticDeploymentTargets := Some([])) else phase;
    var phase := if phase.optionalDeploymentTargets.None? then phase.(optionalDeploymentTargets := Some([])) else phase;
    phase
  }

  /** The configured phases built one by one: same length, same order. */
  function BuildPhases(ps: seq<PhaseAttributes>): (r: seq<Phase>)
    ensures |r| == |ps|
    ensures forall k :: 0 <= k < |ps| ==> r[k] == BuildPhase(ps[k])
  {
    if ps == [] then [] else [BuildPhase(ps[0])] + BuildPhases(ps[1..])
  }

  /** Building one more phase appends it. */
  lemma BuildPhasesSnoc(ps: seq<PhaseAttributes>, i: int)
    requires 0 <= i < |ps|
    ensures BuildPhases(ps[..i + 1]) == BuildPhases(ps[..i]) + [BuildPhase(ps[i])]
  {
    var left, right := BuildPhases(ps[..i + 1]), BuildPhases(ps[..i]) + [BuildPhase(ps[i])];
    assert |left| == |right|;
    forall k | 0 <= k < |left| ensures left[k] == right[k] {
      assert ps[..i + 1][k] == ps[k];
      if k < i { assert ps[..i][k] == ps[k]; }
    }
  }

  /** The lifecycle built from what the constructor returned: the description
      replaced when one is given, each retention policy replaced when its
      block has one element, and the configured phases appended in order. */
  function Built(attrs: LifecycleAttributes, base: Lifecycle): (lc: Lifecycle)
    ensures lc.id == base.id && lc.name == base.name
    ensures lc.description == if attrs.description != "" then attrs.description else base.description
    ensures |lc.phases| == |base.phases| + |attrs.phases| && lc.phases[..|base.phases|] == base.phases
    ensures forall k :: 0 <= k < |attrs.phases| ==> lc.phases[|base.phases| + k] == BuildPhase(attrs.phases[k])
  {
    var release := GetRetentionPeriod(attrs.releaseRetentionPolicy);
    var tentacle := GetRetentionPeriod(attrs.tentacleRetentionPolicy);
    base.(description := if attrs.description != "" then attrs.description else base.description,
          releaseRetentionPolicy := release.GetOr(base.releaseRetentionPolicy),
          tentacleRetentionPolicy := tentacle.GetOr(base.tentacleRetentionPolicy),
          phases := base.phases + BuildPhases(attrs.phases))
  }

  /** The retention policies keep the constructor's defaults unless their
      block has exactly one element; the new phases follow the constructor's
      in configured order, each with both target lists present. */
  lemma BuiltProperties(attrs: LifecycleAttributes, base: Lifecycle)
    ensures var lc := Built(attrs, base);
      && (|attrs.releaseRetentionPolicy| != 1 ==> lc.releaseRetentionPolicy == base.releaseRetentionPolicy)
      && (|attrs.releaseRetentionPolicy| == 1 ==>
            lc.releaseRetentionPolicy == RetentionPeriod(attrs.releaseRetentionPolicy[0].unit, attrs.releaseRetentionPolicy[0].quantityToKeep))
      && (|attrs.tentacleRetentionPolicy| != 1 ==> lc.tentacleRetentionPolicy == base.tentacleRetentionPolicy)
      && (|attrs.tentacleRetentionPolicy| == 1 ==>
            lc.tentacleRetentionPolicy == RetentionPeriod(attrs.tentacleRetentionPolicy[0].unit, attrs.tentacleRetentionPolicy[0].quantityToKeep))
      && |lc.phases| == |base.phases| + |attrs.phases|
      && lc.phases[..|base.phases|] == base.phases
      && (forall k :: 0 <= k < |attrs.phases| ==> lc.phases[|base.phases| + k] == BuildPhase(attrs.phases[k]))
      && (forall k :: |base.phases| <= k < |lc.phases| ==>
            lc.phases[k].automaticDeploymentTargets.Some? && lc.phases[k].optionalDeploymentTargets.Some?)
      && lc.id == base.id && lc.name == base.name
  {
  }

  /** The phase loop: each configured phase is built and appended, in order. */
  method AppendPhases(phases: seq<Phase>, ps: seq<PhaseAttributes>) returns (r: seq<Phase>)
    ensures r == phases + BuildPhases(ps)
  {
    r := phases;
    var i := 0;
    while i < |ps|
      invariant 0 <= i <= |ps|
      invariant r == phases + BuildPhases(ps[..i])
    {
      BuildPhasesSnoc(ps, i);
      r := r + [BuildPhase(ps[i])];
      i := i + 1;
    }
    assert ps[..i] == ps;
  }

  /** The lifecycle builder. A constructor error is returned as it is. */
  method BuildLifecycle(attrs: LifecycleAttributes, newLifecycle: LifecycleConstructor) returns (r: Result<Lifecycle, string>)
    ensures newLifecycle(attrs.name).Failure? ==> r == Failure(newLifecycle(attrs.name).error)
    ensures newLifecycle(attrs.name).Success? ==> r == Success(Built(attrs, newLifecycle(attrs.name).value))
  {
    var constructed := newLifecycle(attrs.name);
    if constructed.Failure? {
      return Failure(constructed.error);
    }
    var lifecycle := constructed.value;
    if attrs.description != "" {
      lifecycle := lifecycle.(description := attrs.description);
    }
    var releaseRetentionPolicy := GetRetentionPeriod(attrs.releaseRetentionPolicy);
    if releaseRetentionPolicy.Some? {
      lifecycle := lifecycle.(releaseRetentionPolicy := releaseRetentionPolicy.value);
    }
    var tentacleRetentionPolicy := GetRetentionPeriod(attrs.tentacleRetentionPolicy);
    if tentacleRetentionPolicy.Some? {
      lifecycle := lifecycle.(tentacleRetentionPolicy := tentacleRetentionPolicy.value);
    }
    if |attrs.phases| > 0 {
      var phases := AppendPhases(lifecycle.phases, attrs.phases);
      lifecycle := lifecycle.(phases := phases);
    } else {
      assert constructed.value.phases + BuildPhases(attrs.phases) == constructed.value.phases;
    }
    r := Success(lifecycle);
  }

  /** A request the lifecycle resource sends to the service. */
  datatype LifecycleCall = AddLifecycle(lifecycle: Lifecycle) | GetLifecycle(id: string)
    | UpdateLifecycle(lifecycle: Lifecycle) | DeleteLifecycle(id: string)

  /** The engine's tracked state for one lifecycle resource. */
  class LifecycleResourceData {
    var id: string
    var attrs: LifecycleAttributes

    constructor (id: string, attrs: LifecycleAttributes)
      ensures this.id == id && this.attrs == attrs
    {
      this.id := id;
      this.attrs := attrs;
    }

    /** Builds and adds the lifecycle. A constructor error sends nothing; an
        empty returned ID leaves the ID slot as it was. */
    method Create(newLifecycle: LifecycleConstructor, add: Lifecycle -> Result<Lifecycle, string>)
      returns (err: Option<Error>, calls: seq<LifecycleCall>)
      modifies this`id
      ensures newLifecycle(attrs.name).Failure? ==>
        err == Some(Cause(newLifecycle(attrs.name).error)) && calls == [] && id == old(id)
      ensures newLifecycle(attrs.name).Success? ==>
        var sent := Built(attrs, newLifecycle(attrs.name).value);
        && calls == [AddLifecycle(sent)]
        && match add(sent)
           case Failure(cause) => err == Some(Cause(cause)) && id == old(id)
           case Success(lc) => err == None && id == (if lc.id == "" then old(id) else lc.id)
    {
      var built := BuildLifecycle(attrs, newLifecycle);
      if built.Failure? {
        return Some(Cause(built.error)), [];
      }
      var lifecycle := built.value;
      calls := [AddLifecycle(lifecycle)];
      var response := add(lifecycle);
      if response.Failure? {
        return Some(Cause(response.error)), calls;
      }
      if response.value.id != "" {
        id := response.value.id;
      }
      err := None;
    }

    /** Refreshes the name and description from the service; a lifecycle
        that no longer exists clears the ID and is not an error. */
    method Read(get: string -> Fetched<Lifecycle>) returns (err: Option<Error>, calls: seq<LifecycleCall>)
      modifies this`id, this`attrs
      ensures calls == [GetLifecycle(old(id))]
      ensures match get(old(id))
        case FetchFailed(cause) => err == Some(Cause(cause)) && id == old(id) && attrs == old(attrs)
        case Missing => err == None && id == "" && attrs == old(attrs)
        case Found(lc) =>
          err == None && id == old(id) && attrs == old(attrs).(name := lc.name, description := lc.description)
    {
      calls := [GetLifecycle(id)];
      var fetched := get(id);
      match fetched
      case FetchFailed(cause) =>
        err := Some(Cause(cause));
      case Missing =>
        id := "";
        err := None;
      case Found(lc) =>
        attrs := attrs.(name := lc.name, description := lc.description);
        err := None;
    }

    /** Builds the lifecycle, sends it under the tracked ID and takes the
        returned ID. A constructor error sends nothing. */
    method Update(newLifecycle: LifecycleConstructor, update: Lifecycle -> Result<Lifecycle, string>)
      returns (err: Option<Error>, calls: seq<LifecycleCall>)
      modifies this`id
      ensures newLifecycle(attrs.name).Failure? ==>
        err == Some(Cause(newLifecycle(attrs.name).error)) && calls == [] && id == old(id)
      ensures newLifecycle(attrs.name).Success? ==>
        var sent := Built(attrs, newLifecycle(attrs.name).value).(id := old(id));
        && calls == [UpdateLifecycle(sent)]
        && match update(sent)
           case Failure(cause) => err == Some(Cause(cause)) && id == old(id)
           case Success(lc) => err == None && id == lc.id
    {
      var built := BuildLifecycle(attrs, newLifecycle);
      if built.Failure? {
        return Some(Cause(built.error)), [];
      }
      var lifecycle := built.value.(id := id);
      calls := [UpdateLifecycle(lifecycle)];
      var response := update(lifecycle);
      if response.Failure? {
        return Some(Cause(response.error)), calls;
      }
      id := response.value.id;
      err := None;
    }

    /** Deletes the lifecycle; success clears the ID. */
    method Delete(delete: string -> Option<string>) returns (err: Option<Error>, calls: seq<LifecycleCall>)
      modifies this`id
      ensures calls == [DeleteLifecycle(old(id))]
      ensures match delete(old(id))
        case Some(cause) => err == Some(Cause(cause)) && id == old(id)
        case None => err == None && id == ""
    {
      calls := [DeleteLifecycle(id)];
      var failure := delete(id);
      if failure.Some? {
        return Some(Cause(failure.value)), calls;
      }
      id := "";
      err := None;
    }
  }
}
