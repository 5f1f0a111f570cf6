/** The project deployment-target trigger resource: building the trigger from
    its attributes (event groups and categories checked against fixed
    allow-lists, roles and environment IDs copied) and tracking its ID. */
module DeploymentTargetTriggers {
  import opened Common

  const EventGroupValues: seq<string> := [
    "Machine",
    "MachineCritical",
    "MachineAvailableForDeployment",
    "MachineUnavailableForDeployment",
    "MachineHealthChanged"
  ]

  const EventCategoryValues: seq<string> := [
    "MachineCleanupFailed",
    "MachineAdded",
    "MachineDeploymentRelatedPropertyWasUpdated",
    "MachineDisabled",
    "MachineEnabled",
    "MachineHealthy",
    "MachineUnavailable",
    "MachineUnhealthy",
    "MachineHasWarnings"
  ]

  /** The trigger's filter. An empty list stands for Go's nil slice. */
  datatype TriggerFilter = TriggerFilter(
    eventGroups: seq<string>, eventCategories: seq<string>, roles: seq<string>, environmentIDs: seq<string>)

  datatype ProjectTrigger = ProjectTrigger(
    id: string, name: string, projectID: string, shouldRedeploy: bool, filter: TriggerFilter)

  /** The resource's attributes other than its ID; an absent list is empty. */
  datatype TriggerAttributes = TriggerAttributes(
    name: string, projectID: string, shouldRedeploy: bool,
    eventGroups: seq<string>, eventCategories: seq<string>, roles: seq<string>, environmentIDs: seq<string>)

  predicate AllAllowed(items: seq<string>, allowed: seq<string>)
  {
    forall i :: 0 <= i < |items| ==> items[i] in allowed
  }

  /** The allow-list check: nothing when every item is allowed, otherwise an
      item that is not. */
  function FindDisallowed(items: seq<string>, allowed: seq<string>): (r: Option<string>)
    ensures r.None? <==> AllAllowed(items, allowed)
    ensures r.Some? ==> r.value in items && r.value !in allowed
  {
    if items == [] then None
    else if items[0] !in allowed then Some(items[0])
    else
      var rest := FindDisallowed(items[1..], allowed);
      assert forall i :: 1 <= i < |items| ==> items[i] == items[1..][i - 1];
      rest
  }

  /** The trigger as the constructor makes it: no ID and an empty filter. */
  function NewDeploymentTargetTrigger(name: string, projectID: string, shouldRedeploy: bool): (t: ProjectTrigger)
    ensures t.id == "" && t.name == name && t.projectID == projectID && t.shouldRedeploy == shouldRedeploy
    ensures t.filter.eventGroups == [] && t.filter.eventCategories == []
    ensures t.filter.roles == [] && t.filter.environmentIDs == []
  {
    ProjectTrigger("", name, projectID, shouldRedeploy, TriggerFilter([], [], [], []))
  }

  /** Builds the trigger. A disallowed event group, and otherwise a disallowed
      event category, rejects the build with an error naming it; a built
      trigger carries the four lists unchanged. */
  function BuildTrigger(attrs: TriggerAttributes): (r: Result<ProjectTrigger, Error>)
    ensures r.Failure? <==> !AllAllowed(attrs.eventGroups, EventGroupValues) || !AllAllowed(attrs.eventCategories, EventCategoryValues)
    ensures !AllAllowed(attrs.eventGroups, EventGroupValues) ==>
      && r.Failure? && r.error.InvalidValue?
      && r.error.attribute == "event_groups" && r.error.allowed == EventGroupValues
      && r.error.value in attrs.eventGroups && r.error.value !in EventGroupValues
    ensures AllAllowed(attrs.eventGroups, EventGroupValues) && !AllAllowed(attrs.eventCategories, EventCategoryValues) ==>
      && r.Failure? && r.error.InvalidValue?
      && r.error.attribute == "event_categories" && r.error.allowed == EventCategoryValues
      && r.error.value in attrs.eventCategories && r.error.value !in EventCategoryValues
    ensures r.Success? ==> r.value == ProjectTrigger("", attrs.name, attrs.projectID, attrs.shouldRedeploy,
      TriggerFilter(attrs.eventGroups, attrs.eventCategories, attrs.roles, attrs.environmentIDs))
  {
    var trigger := NewDeploymentTargetTrigger(attrs.name, attrs.projectID, attrs.shouldRedeploy);
    var badGroup := if |attrs.eventGroups| > 0 then FindDisallowed(attrs.eventGroups, EventGroupValues) else None;
    if badGroup.Some? then Failure(InvalidValue("event_groups", badGroup.value, EventGroupValues))
    else
      var trigger := if |attrs.eventGroups| > 0
        then trigger.(filter := trigger.filter.(eventGroups := trigger.filter.eventGroups + attrs.eventGroups))
        else trigger;
      var badCategory := if |attrs.eventCategories| > 0 then FindDisallowed(attrs.eventCategories, EventCategoryValues) else None;
      if badCategory.Some? then Failure(InvalidValue("event_categories", badCategory.value, EventCategoryValues))
      else
        var trigger := if |attrs.eventCategories| > 0
          then trigger.(filter := trigger.filter.(eventCategories := trigger.filter.eventCategories + attrs.eventCategories))
          else trigger;
        var trigger := if |attrs.roles| > 0 then trigger.(filter := trigger.filter.(roles := attrs.roles)) else trigger;
        var trigger := if |attrs.environmentIDs| > 0
          then trigger.(filter := trigger.filter.(environmentIDs := attrs.environmentIDs))
          else trigger;
        assert [] + attrs.eventGroups == attrs.eventGroups;
        assert [] + attrs.eventCategories == attrs.eventCategories;
        Success(trigger)
  }

  /** Roles and environment IDs are never validated: whatever they hold, a
      trigger whose event lists pass is built with them. */
  lemma RolesAndEnvironmentsNotValidated(attrs: TriggerAttributes, roles: seq<string>, environmentIDs: seq<string>)
    requires BuildTrigger(attrs).Success?
    ensures var built := BuildTrigger(attrs.(roles := roles, environmentIDs := environmentIDs));
      built.Success? && built.value.filter.roles == roles && built.value.filter.environmentIDs == environmentIDs
  {
  }

  lemma InvalidGroupRejected()
    ensures BuildTrigger(TriggerAttributes("t", "Projects-1", false, ["Machine", "Bogus"], [], [], [])) ==
      Failure(InvalidValue("event_groups", "Bogus", EventGroupValues))
  {
    var groups := ["Machine", "Bogus"];
    assert groups[1..] == ["Bogus"];
    assert "Bogus" !in EventGroupValues;
  }

  /** A request the trigger resource sends to the service. */
  datatype TriggerCall = AddTrigger(trigger: ProjectTrigger) | GetTrigger(id: string)
    | UpdateTrigger(trigger: ProjectTrigger) | DeleteTrigger(id: string)

  /** The engine's tracked state for one trigger resource. */
  class TriggerResourceData {
    var id: string
    var attrs: TriggerAttributes

    constructor (id: string, attrs: TriggerAttributes)
      ensures this.id == id && this.attrs == attrs
    {
      this.id := id;
      this.attrs := attrs;
    }

    /** Builds and adds the trigger. A build error sends nothing; an empty
        returned ID leaves the ID slot as it was. */
    method Create(add: ProjectTrigger -> Result<ProjectTrigger, string>) returns (err: Option<Error>, calls: seq<TriggerCall>)
      modifies this`id
      ensures BuildTrigger(attrs).Failure? ==> err == Some(BuildTrigger(attrs).error) && calls == [] && id == old(id)
      ensures BuildTrigger(attrs).Success? ==>
        var sent := BuildTrigger(attrs).value;
        && calls == [AddTrigger(sent)]
        && match add(sent)
           case Failure(cause) => err == Some(OperationError(CreatingProjectTrigger, sent.name, cause)) && id == old(id)
           case Success(t) => err == None && id == (if t.id == "" then old(id) else t.id)
    {
      var built := BuildTrigger(attrs);
      if built.Failure? {
        return Some(built.error), [];
      }
      var trigger := built.value;
      calls := [AddTrigger(trigger)];
      var response := add(trigger);
      if response.Failure? {
        return Some(OperationError(CreatingProjectTrigger, trigger.name, response.error)), calls;
      }
      if response.value.id != "" {
        id := response.value.id;
      }
      err := None;
    }

    /** Refreshes the attributes from the service; a trigger that no longer
        exists clears the ID and is not an error. */
    method Read(get: string -> Fetched<ProjectTrigger>) returns (err: Option<Error>, calls: seq<TriggerCall>)
      modifies this`id, this`attrs
      ensures calls == [GetTrigger(old(id))]
      ensures match get(old(id))
        case FetchFailed(cause) =>
          err == Some(OperationError(ReadingProjectTrigger, old(id), cause)) && id == old(id) && attrs == old(attrs)
        case Missing => err == None && id == "" && attrs == old(attrs)
        case Found(t) =>
          && err == None && id == old(id)
          && attrs == old(attrs).(name := t.name, shouldRedeploy := t.shouldRedeploy,
                                  eventGroups := t.filter.eventGroups, eventCategories := t.filter.eventCategories,
                                  roles := t.filter.roles, environmentIDs := t.filter.environmentIDs)
    {
      calls := [GetTrigger(id)];
      var fetched := get(id);
      match fetched
      case FetchFailed(cause) =>
        err := Some(OperationError(ReadingProjectTrigger, id, cause));
      case Missing =>
        id := "";
        err := None;
      case Found(t) =>
        attrs := attrs.(name := t.name, shouldRedeploy := t.shouldRedeploy,
                        eventGroups := t.filter.eventGroups, eventCategories := t.filter.eventCategories,
                        roles := t.filter.roles, environmentIDs := t.filter.environmentIDs);
        err := None;
    }

    /** Builds the trigger, sends it under the tracked ID and takes the
        returned ID. A build error sends nothing. */
    method Update(update: ProjectTrigger -> Result<ProjectTrigger, string>) returns (err: Option<Error>, calls: seq<TriggerCall>)
      modifies this`id
      ensures BuildTrigger(attrs).Failure? ==> err == Some(BuildTrigger(attrs).error) && calls == [] && id == old(id)
      ensures BuildTrigger(attrs).Success? ==>
        var sent := BuildTrigger(attrs).value.(id := old(id));
        && calls == [UpdateTrigger(sent)]
        && match update(sent)
           case Failure(cause) => err == Some(OperationError(UpdatingProjectTrigger, old(id), cause)) && id == old(id)
           case Success(t) => err == None && id == t.id
    {
      var built := BuildTrigger(attrs);
      if built.Failure? {
        return Some(built.error), [];
      }
      var trigger := built.value.(id := id);
      calls := [UpdateTrigger(trigger)];
      var response := update(trigger);
      if response.Failure? {
        return Some(OperationError(UpdatingProjectTrigger, id, response.error)), calls;
      }
      id := response.value.id;
      err := None;
    }

    /** Deletes the trigger; success clears the ID. */
    method Delete(delete: string -> Option<string>) returns (err: Option<Error>, calls: seq<TriggerCall>)
      modifies this`id
      ensures calls == [DeleteTrigger(old(id))]
      ensures match delete(old(id))
        case Some(cause) => err == Some(OperationError(DeletingProjectTrigger, old(id), cause)) && id == old(id)
        case None => err == None && id == ""
    {
      calls := [DeleteTrigger(id)];
      var failure := delete(id);
      if failure.Some? {
        return Some(OperationError(DeletingProjectTrigger, id, failure.value)), calls;
      }
      id := "";
      err := None;
    }
  }
}
