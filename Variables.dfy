/** The project-variable resource: its import ID, the sensitivity/type
    consistency rule, the variable it sends, and how it finds its own
    variable again in the project's variable collection the service returns
    after a create or an update. */
module Variables {
  import opened Common
  import opened Strings

  const SensitiveType := "Sensitive"

  const SensitiveNeedsTypeMessage := "when is_sensitive is set to true, type needs to be 'Sensitive'"
  const TypeNeedsSensitiveMessage := "when type is set to 'Sensitive', is_sensitive needs to be true"
  const ImportFormatMessage := "octopusdeploy_variable import must be in the form of ProjectID:VariableID (e.g. Projects-62:0906031f-68ba-4a15-afaa-657c1564e07b"

  /** The dimensions restricting where a variable applies. How the client
      library compares two scopes is not modelled (see ScopeMatcher). */
  datatype Scope = Scope(
    environments: seq<string>, machines: seq<string>, roles: seq<string>, actions: seq<string>,
    channels: seq<string>, tenantTags: seq<string>, processes: seq<string>)

  datatype PromptOptions = PromptOptions(labelText: string, description: string, required: bool)

  /** A variable as sent to and returned by the service. */
  datatype Variable = Variable(
    id: string, name: string, varType: string, value: string, description: string,
    isSensitive: bool, scope: Scope, prompt: Option<PromptOptions>)

  /** The resource's attributes other than its ID and project ID. An absent
      string reads as "", an absent flag as false; `value` is None once read
      has cleared it; `prompt` lists the elements of the prompt set. */
  datatype VariableAttributes = VariableAttributes(
    name: string, varType: string, value: Option<string>, sensitiveValue: string,
    description: string, isSensitive: bool, scope: Scope, prompt: seq<PromptOptions>)

  /** The two halves of an imported ID. */
  datatype ImportID = ImportID(projectID: string, variableID: string)

  /** The client library's scope comparison: whether the returned variable's
      scope (first argument) matches the local one (second), and an error the
      comparison may report alongside. */
  datatype ScopeVerdict = ScopeVerdict(matches: bool, error: Option<string>)

  type ScopeMatcher = (Scope, Scope) -> ScopeVerdict

  /** Create gives up on a scope comparison error; update only looks at
      whether the comparison said the scopes match. */
  datatype ScopeErrorPolicy = AbortOnScopeError | IgnoreScopeErrors

  /** The outcome of searching the returned collection. */
  datatype Reconciliation = Adopted(id: string) | NotFound | ScopeFailed(error: string)

  /** An import ID is accepted exactly when it holds one colon; its halves are
      the project ID and the variable ID. */
  function ParseImportID(s: string): (r: Result<ImportID, Error>)
    ensures r.Success? <==> Count(s, ':') == 1
    ensures r.Success? ==> r.value.projectID + ":" + r.value.variableID == s
    ensures r.Success? ==> ':' !in r.value.projectID && ':' !in r.value.variableID
    ensures r.Failure? ==> r.error == Invalid(ImportFormatMessage)
  {
    var parts := Split(s, ':');
    if |parts| != 2 then Failure(Invalid(ImportFormatMessage))
    else
      assert Join(parts, ':') == parts[0] + [':'] + Join(parts[1..], ':');
      Success(ImportID(parts[0], parts[1]))
  }

  /** Any two colon-free halves make an import ID that parses back to them. */
  lemma ImportIDRoundTrip(projectID: string, variableID: string)
    requires ':' !in projectID && ':' !in variableID
    ensures ParseImportID(projectID + ":" + variableID) == Success(ImportID(projectID, variableID))
  {
    var parts := [projectID, variableID];
    assert Join(parts, ':') == projectID + ":" + variableID;
    SplitJoin(parts, ':');
  }

  lemma ImportIDExample()
    ensures ParseImportID("Projects-1:Variables-2") == Success(ImportID("Projects-1", "Variables-2"))
  {
    ImportIDRoundTrip("Projects-1", "Variables-2");
    assert "Projects-1" + ":" + "Variables-2" == "Projects-1:Variables-2";
  }

  /** An ID without a colon is rejected. */
  lemma ImportIDWithoutColonRejected()
    ensures ParseImportID("bad-id") == Failure(Invalid(ImportFormatMessage))
  {
    CountAbsent("bad-id", ':');
  }

  /** An ID with three parts is rejected. */
  lemma ImportIDWithThreePartsRejected()
    ensures ParseImportID("a:b:c") == Failure(Invalid(ImportFormatMessage))
  {
    assert "a:b:c" == "a:" + "b:c";
    assert "b:c" == "b:" + "c";
    CountAppend("a:", "b:c", ':');
    CountAppend("b:", "c", ':');
  }

  /** Validation passes exactly when the flag agrees with the type; each
      direction of disagreement has its own message. */
  function ValidateVariable(isSensitive: bool, varType: string): (r: Option<Error>)
    ensures r.None? <==> (isSensitive <==> varType == SensitiveType)
    ensures isSensitive && varType != SensitiveType ==> r == Some(Invalid(SensitiveNeedsTypeMessage))
    ensures !isSensitive && varType == SensitiveType ==> r == Some(Invalid(TypeNeedsSensitiveMessage))
  {
    if isSensitive && varType != SensitiveType then Some(Invalid(SensitiveNeedsTypeMessage))
    else if !isSensitive && varType == SensitiveType then Some(Invalid(TypeNeedsSensitiveMessage))
    else None
  }

  lemma ValidationMessagesDiffer(varType: string)
    requires varType != SensitiveType
    ensures ValidateVariable(true, varType) != ValidateVariable(false, SensitiveType)
  {
  }

  /** The variable the resource sends. Its value comes from the sensitive
      value exactly when the variable is marked sensitive; a prompt is
      attached exactly when the prompt set has one element. */
  function BuildVariable(attrs: VariableAttributes): (v: Variable)
    ensures v.value == if attrs.isSensitive then attrs.sensitiveValue else attrs.value.GetOr("")
    ensures v.prompt.Some? <==> |attrs.prompt| == 1
    ensures v.prompt.Some? ==> v.prompt.value == attrs.prompt[0]
    ensures v.id == "" && v.name == attrs.name && v.varType == attrs.varType
    ensures v.description == attrs.description && v.isSensitive == attrs.isSensitive
    ensures v.scope == attrs.scope
  {
    var value := if attrs.isSensitive then attrs.sensitiveValue else attrs.value.GetOr("");
    var prompt := if |attrs.prompt| == 1 then Some(attrs.prompt[0]) else None;
    Variable("", attrs.name, attrs.varType, value, attrs.description, attrs.isSensitive, attrs.scope, prompt)
  }

  /** What the field test compares of a variable: everything but its ID, its
      scope and its prompt, and its value only when it is not sensitive. */
  function ComparedFields(v: Variable): (c: Variable)
  {
    v.(id := "", value := if v.isSensitive then "" else v.value,
       scope := Scope([], [], [], [], [], [], []), prompt := None)
  }

  /** The field test applied to each returned variable before its scope is
      compared. A sensitive returned variable's value is never looked at, so
      the test is equality of the compared fields. */
  function FieldsMatch(returned: Variable, candidate: Variable): (r: bool)
    ensures r <==> ComparedFields(returned) == ComparedFields(candidate)
  {
    && returned.name == candidate.name
    && returned.varType == candidate.varType
    && (returned.isSensitive || returned.value == candidate.value)
    && returned.description == candidate.description
    && returned.isSensitive == candidate.isSensitive
  }

  /** The search adopts `returned`'s ID at this element. */
  predicate Adopts(returned: Variable, candidate: Variable, matchesScope: ScopeMatcher, policy: ScopeErrorPolicy)
  {
    var verdict := matchesScope(returned.scope, candidate.scope);
    FieldsMatch(returned, candidate) && verdict.matches
    && (policy == IgnoreScopeErrors || verdict.error.None?)
  }

  /** The search stops with a scope comparison error at this element. */
  predicate Aborts(returned: Variable, candidate: Variable, matchesScope: ScopeMatcher, policy: ScopeErrorPolicy)
  {
    policy == AbortOnScopeError && FieldsMatch(returned, candidate)
    && matchesScope(returned.scope, candidate.scope).error.Some?
  }

  /** No element before index `i` stops the search. */
  predicate PassedOver(vs: seq<Variable>, i: int, candidate: Variable, matchesScope: ScopeMatcher, policy: ScopeErrorPolicy)
    requires 0 <= i <= |vs|
  {
    forall j :: 0 <= j < i ==>
      !Adopts(vs[j], candidate, matchesScope, policy) && !Aborts(vs[j], candidate, matchesScope, policy)
  }

  /** The outcome of scanning the returned collection in order, stopping at
      the first element that matches or whose scope comparison fails. */
  function FirstMatch(vs: seq<Variable>, candidate: Variable, matchesScope: ScopeMatcher, policy: ScopeErrorPolicy)
    : (r: Reconciliation)
    ensures r.Adopted? ==> exists k :: 0 <= k < |vs| && vs[k].id == r.id
    ensures r.ScopeFailed? ==> policy == AbortOnScopeError
  {
    if vs == [] then NotFound
    else
      assert forall k :: 0 <= k < |vs[1..]| ==> vs[1..][k] == vs[k + 1];
      if !FieldsMatch(vs[0], candidate) then FirstMatch(vs[1..], candidate, matchesScope, policy)
      else
        var verdict := matchesScope(vs[0].scope, candidate.scope);
        if policy == AbortOnScopeError && verdict.error.Some? then ScopeFailed(verdict.error.value)
        else if verdict.matches then Adopted(vs[0].id)
        else FirstMatch(vs[1..], candidate, matchesScope, policy)
  }

  /** The reconciliation loop of create and update. */
  method Reconcile(vs: seq<Variable>, candidate: Variable, matchesScope: ScopeMatcher, policy: ScopeErrorPolicy)
    returns (r: Reconciliation)
    ensures r == FirstMatch(vs, candidate, matchesScope, policy)
  {
    var i := 0;
    while i < |vs|
      invariant 0 <= i <= |vs|
      invariant FirstMatch(vs, candidate, matchesScope, policy) == FirstMatch(vs[i..], candidate, matchesScope, policy)
    {
      assert vs[i..][1..] == vs[i + 1..];
      var v := vs[i];
      if FieldsMatch(v, candidate) {
        var verdict := matchesScope(v.scope, candidate.scope);
        if policy == AbortOnScopeError && verdict.error.Some? {
          return ScopeFailed(verdict.error.value);
        }
        if verdict.matches {
          return Adopted(v.id);
        }
      }
      i := i + 1;
    }
    return NotFound;
  }

  /** An adopted ID is that of an element that matches, and every element
      before it was passed over. */
  lemma {:induction false} FirstMatchAdopted(vs: seq<Variable>, candidate: Variable, matchesScope: ScopeMatcher, policy: ScopeErrorPolicy)
    requires FirstMatch(vs, candidate, matchesScope, policy).Adopted?
    ensures exists i :: (0 <= i < |vs| && vs[i].id == FirstMatch(vs, candidate, matchesScope, policy).id
      && Adopts(vs[i], candidate, matchesScope, policy) && PassedOver(vs, i, candidate, matchesScope, policy))
  {
    var r := FirstMatch(vs, candidate, matchesScope, policy);
    if Adopts(vs[0], candidate, matchesScope, policy) {
      assert PassedOver(vs, 0, candidate, matchesScope, policy);
    } else {
      FirstMatchAdopted(vs[1..], candidate, matchesScope, policy);
      var i :| 0 <= i < |vs[1..]| && vs[1..][i].id == r.id
        && Adopts(vs[1..][i], candidate, matchesScope, policy) && PassedOver(vs[1..], i, candidate, matchesScope, policy);
      assert PassedOver(vs, i + 1, candidate, matchesScope, policy) by {
        forall j | 0 <= j < i + 1
          ensures !Adopts(vs[j], candidate, matchesScope, policy) && !Aborts(vs[j], candidate, matchesScope, policy)
        {
          if j > 0 { assert vs[j] == vs[1..][j - 1]; }
        }
      }
    }
  }

  /** A scope failure happens only in create, at an element whose fields
      match and whose scope comparison failed with that error, every earlier
      element having been passed over. */
  lemma {:induction false} FirstMatchScopeFailed(vs: seq<Variable>, candidate: Variable, matchesScope: ScopeMatcher, policy: ScopeErrorPolicy)
    requires FirstMatch(vs, candidate, matchesScope, policy).ScopeFailed?
    ensures policy == AbortOnScopeError
    ensures exists i :: (0 <= i < |vs| && Aborts(vs[i], candidate, matchesScope, policy)
      && matchesScope(vs[i].scope, candidate.scope).error == Some(FirstMatch(vs, candidate, matchesScope, policy).error)
      && PassedOver(vs, i, candidate, matchesScope, policy))
  {
    var r := FirstMatch(vs, candidate, matchesScope, policy);
    if Aborts(vs[0], candidate, matchesScope, policy) {
      assert PassedOver(vs, 0, candidate, matchesScope, policy);
    } else {
      FirstMatchScopeFailed(vs[1..], candidate, matchesScope, policy);
      var i :| 0 <= i < |vs[1..]| && Aborts(vs[1..][i], candidate, matchesScope, policy)
        && matchesScope(vs[1..][i].scope, candidate.scope).error == Some(r.error)
        && PassedOver(vs[1..], i, candidate, matchesScope, policy);
      assert PassedOver(vs, i + 1, candidate, matchesScope, policy) by {
        forall j | 0 <= j < i + 1
          ensures !Adopts(vs[j], candidate, matchesScope, policy) && !Aborts(vs[j], candidate, matchesScope, policy)
        {
          if j > 0 { assert vs[j] == vs[1..][j - 1]; }
        }
      }
    }
  }

  /** The search finds nothing exactly when every element is passed over. */
  lemma {:induction false} FirstMatchNotFound(vs: seq<Variable>, candidate: Variable, matchesScope: ScopeMatcher, policy: ScopeErrorPolicy)
    ensures FirstMatch(vs, candidate, matchesScope, policy) == NotFound
      <==> PassedOver(vs, |vs|, candidate, matchesScope, policy)
  {
    if vs != [] {
      FirstMatchNotFound(vs[1..], candidate, matchesScope, policy);
      assert PassedOver(vs, |vs|, candidate, matchesScope, policy)
        <==> (!Adopts(vs[0], candidate, matchesScope, policy) && !Aborts(vs[0], candidate, matchesScope, policy)
              && PassedOver(vs[1..], |vs| - 1, candidate, matchesScope, policy)) by {
        forall j | 1 <= j < |vs| ensures vs[j] == vs[1..][j - 1] { }
      }
    }
  }

  /** Conversely, the first element that matches, with every earlier element
      passed over, is the one whose ID is adopted. */
  lemma {:induction false} FirstMatchAt(vs: seq<Variable>, i: int, candidate: Variable, matchesScope: ScopeMatcher, policy: ScopeErrorPolicy)
    requires 0 <= i < |vs|
    requires Adopts(vs[i], candidate, matchesScope, policy)
    requires PassedOver(vs, i, candidate, matchesScope, policy)
    ensures FirstMatch(vs, candidate, matchesScope, policy) == Adopted(vs[i].id)
  {
    if i > 0 {
      assert !Adopts(vs[0], candidate, matchesScope, policy) && !Aborts(vs[0], candidate, matchesScope, policy);
      assert vs[1..][i - 1] == vs[i];
      assert PassedOver(vs[1..], i - 1, candidate, matchesScope, policy) by {
        forall j | 0 <= j < i - 1
          ensures !Adopts(vs[1..][j], candidate, matchesScope, policy) && !Aborts(vs[1..][j], candidate, matchesScope, policy)
        {
          assert vs[1..][j] == vs[j + 1];
        }
      }
      FirstMatchAt(vs[1..], i - 1, candidate, matchesScope, policy);
    }
  }

  /** When no scope comparison of a field-matching element reports an
      error, create and update find the same variable. */
  lemma {:induction false} PoliciesAgreeWithoutScopeErrors(vs: seq<Variable>, candidate: Variable, matchesScope: ScopeMatcher)
    requires forall i :: 0 <= i < |vs| && FieldsMatch(vs[i], candidate) ==> matchesScope(vs[i].scope, candidate.scope).error.None?
    ensures FirstMatch(vs, candidate, matchesScope, AbortOnScopeError) == FirstMatch(vs, candidate, matchesScope, IgnoreScopeErrors)
  {
    if vs != [] {
      assert forall i :: 0 <= i < |vs[1..]| ==> vs[1..][i] == vs[i + 1];
      PoliciesAgreeWithoutScopeErrors(vs[1..], candidate, matchesScope);
    }
  }

  /** `ws` is `vs` with possibly different values in sensitive elements. */
  predicate SameUpToSensitiveValues(vs: seq<Variable>, ws: seq<Variable>)
  {
    |vs| == |ws| && forall i :: 0 <= i < |vs| ==>
      ws[i] == vs[i] || (vs[i].isSensitive && ws[i] == vs[i].(value := ws[i].value))
  }

  /** Masking or withholding the values of sensitive returned variables does
      not change which variable is found. */
  lemma {:induction false} SensitiveValuesNotCompared(vs: seq<Variable>, ws: seq<Variable>, candidate: Variable, matchesScope: ScopeMatcher, policy: ScopeErrorPolicy)
    requires SameUpToSensitiveValues(vs, ws)
    ensures FirstMatch(ws, candidate, matchesScope, policy) == FirstMatch(vs, candidate, matchesScope, policy)
  {
    if vs != [] {
      assert SameUpToSensitiveValues(vs[1..], ws[1..]) by {
        forall i | 0 <= i < |vs[1..]| ensures vs[1..][i] == vs[i + 1] && ws[1..][i] == ws[i + 1] { }
      }
      SensitiveValuesNotCompared(vs[1..], ws[1..], candidate, matchesScope, policy);
      assert ws[0] == vs[0] || (vs[0].isSensitive && ws[0] == vs[0].(value := ws[0].value));
    }
  }

  const NoScope := Scope([], [], [], [], [], [], [])

  /** A plain variable whose environment scope matches is found. */
  lemma PlainVariableFound(matchesScope: ScopeMatcher, policy: ScopeErrorPolicy)
    requires matchesScope(NoScope.(environments := ["Env-1"]), NoScope.(environments := ["Env-1"])) == ScopeVerdict(true, None)
    ensures var scope := NoScope.(environments := ["Env-1"]);
      var candidate := Variable("", "Port", "String", "8080", "", false, scope, None);
      FirstMatch([candidate.(id := "Variables-1")], candidate, matchesScope, policy) == Adopted("Variables-1")
  {
  }

  /** The same variable returned with a different environment is not found. */
  lemma PlainVariableOtherScopeNotFound(matchesScope: ScopeMatcher, policy: ScopeErrorPolicy)
    requires matchesScope(NoScope.(environments := ["Env-2"]), NoScope.(environments := ["Env-1"])) == ScopeVerdict(false, None)
    ensures var candidate := Variable("", "Port", "String", "8080", "", false, NoScope.(environments := ["Env-1"]), None);
      var returned := candidate.(id := "Variables-1", scope := NoScope.(environments := ["Env-2"]));
      FirstMatch([returned], candidate, matchesScope, policy) == NotFound
  {
  }

  /** A sensitive variable returned with a masked value is still found. */
  lemma MaskedSensitiveVariableFound(matchesScope: ScopeMatcher, policy: ScopeErrorPolicy)
    requires matchesScope(NoScope, NoScope) == ScopeVerdict(true, None)
    ensures var candidate := Variable("", "DBPassword", SensitiveType, "", "", true, NoScope, None);
      FirstMatch([candidate.(id := "Variables-3", value := "***")], candidate, matchesScope, policy) == Adopted("Variables-3")
  {
  }

  /** A request the variable resource sends to the service. */
  datatype VariableCall =
    | AddSingle(projectID: string, variable: Variable)
    | UpdateSingle(projectID: string, variable: Variable)
    | GetVariable(projectID: string, id: string)
    | DeleteSingle(projectID: string, id: string)

  /** The engine's tracked state for one variable resource: the ID slot, the
      project ID and the other attributes. The service's endpoints are
      passed in as functions from request to response; each operation
      returns the requests it sent. */
  class VariableResourceData {
    var id: string
    var projectID: string
    var attrs: VariableAttributes

    constructor (id: string, projectID: string, attrs: VariableAttributes)
      ensures this.id == id && this.projectID == projectID && this.attrs == attrs
    {
      this.id := id;
      this.projectID := projectID;
      this.attrs := attrs;
    }

    /** Splits the imported ID into the project ID and the variable ID; a
        malformed ID changes nothing. */
    method Import() returns (err: Option<Error>)
      modifies this`id, this`projectID
      ensures var parsed := ParseImportID(old(id));
        if parsed.Success? then err == None && projectID == parsed.value.projectID && id == parsed.value.variableID
        else err == Some(parsed.error) && id == old(id) && projectID == old(projectID)
    {
      var parsed := ParseImportID(id);
      if parsed.Failure? {
        return Some(parsed.error);
      }
      projectID := parsed.value.projectID;
      id := parsed.value.variableID;
      err := None;
    }

    /** Refreshes the attributes from the service; a variable that no longer
        exists clears the ID and is not an error. */
    method Read(get: (string, string) -> Fetched<Variable>) returns (err: Option<Error>, calls: seq<VariableCall>)
      modifies this`id, this`attrs
      ensures calls == [GetVariable(projectID, old(id))]
      ensures match get(projectID, old(id))
        case FetchFailed(cause) =>
          err == Some(OperationError(ReadingVariable, old(id), cause)) && id == old(id) && attrs == old(attrs)
        case Missing => err == None && id == "" && attrs == old(attrs)
        case Found(v) =>
          && err == None && id == old(id)
          && attrs == old(attrs).(name := v.name, varType := v.varType, description := v.description,
                                  value := if old(attrs).isSensitive then None else Some(v.value))
    {
      calls := [GetVariable(projectID, id)];
      var fetched := get(projectID, id);
      match fetched
      case FetchFailed(cause) =>
        err := Some(OperationError(ReadingVariable, id, cause));
      case Missing =>
        id := "";
        err := None;
      case Found(v) =>
        var value := if attrs.isSensitive then None else Some(v.value);
        attrs := attrs.(name := v.name, varType := v.varType, value := value, description := v.description);
        err := None;
    }

    /** Adds the variable and adopts the ID of the first returned variable
        that matches it. Validation failures send nothing. */
    method Create(add: (string, Variable) -> Result<seq<Variable>, string>, matchesScope: ScopeMatcher)
      returns (err: Option<Error>, calls: seq<VariableCall>)
      modifies this`id
      ensures ValidateVariable(attrs.isSensitive, attrs.varType).Some? ==>
        err == ValidateVariable(attrs.isSensitive, attrs.varType) && calls == [] && id == old(id)
      ensures ValidateVariable(attrs.isSensitive, attrs.varType).None? ==>
        var sent := BuildVariable(attrs);
        && calls == [AddSingle(projectID, sent)]
        && match add(projectID, sent)
           case Failure(cause) => err == Some(OperationError(CreatingVariable, attrs.name, cause)) && id == old(id)
           case Success(vs) =>
             match FirstMatch(vs, sent, matchesScope, AbortOnScopeError)
             case Adopted(found) => err == None && id == found
             case NotFound => err == Some(NotLocated(projectID)) && id == ""
             case ScopeFailed(cause) => err == Some(Cause(cause)) && id == old(id)
    {
      err := ValidateVariable(attrs.isSensitive, attrs.varType);
      if err.Some? {
        return err, [];
      }
      var newVariable := BuildVariable(attrs);
      calls := [AddSingle(projectID, newVariable)];
      var response := add(projectID, newVariable);
      if response.Failure? {
        return Some(OperationError(CreatingVariable, newVariable.name, response.error)), calls;
      }
      var outcome := Reconcile(response.value, newVariable, matchesScope, AbortOnScopeError);
      match outcome
      case Adopted(found) =>
        id := found;
        err := None;
      case ScopeFailed(cause) =>
        err := Some(Cause(cause));
      case NotFound =>
        id := "";
        err := Some(NotLocated(projectID));
    }

    /** Sends the variable under the tracked ID and adopts the ID of the
        first returned variable that matches it. The comparison's error is
        discarded: only its boolean decides, so an error reported with
        `false` is a non-match. Validation failures send nothing. */
    method Update(update: (string, Variable) -> Result<seq<Variable>, string>, matchesScope: ScopeMatcher)
      returns (err: Option<Error>, calls: seq<VariableCall>)
      modifies this`id
      ensures ValidateVariable(attrs.isSensitive, attrs.varType).Some? ==>
        err == ValidateVariable(attrs.isSensitive, attrs.varType) && calls == [] && id == old(id)
      ensures ValidateVariable(attrs.isSensitive, attrs.varType).None? ==>
        var sent := BuildVariable(attrs).(id := old(id));
        && calls == [UpdateSingle(projectID, sent)]
        && match update(projectID, sent)
           case Failure(cause) => err == Some(OperationError(UpdatingVariable, old(id), cause)) && id == old(id)
           case Success(vs) =>
             match FirstMatch(vs, sent, matchesScope, IgnoreScopeErrors)
             case Adopted(found) => err == None && id == found
             case NotFound => err == Some(NotLocated(projectID)) && id == ""
             case ScopeFailed(_) => false
    {
      err := ValidateVariable(attrs.isSensitive, attrs.varType);
      if err.Some? {
        return err, [];
      }
      var tfVar := BuildVariable(attrs).(id := id);
      calls := [UpdateSingle(projectID, tfVar)];
      var response := update(projectID, tfVar);
      if response.Failure? {
        return Some(OperationError(UpdatingVariable, id, response.error)), calls;
      }
      var outcome := Reconcile(response.value, tfVar, matchesScope, IgnoreScopeErrors);
      assert !outcome.ScopeFailed?;
      if outcome.Adopted? {
        id := outcome.id;
        err := None;
      } else {
        id := "";
        err := Some(NotLocated(projectID));
      }
    }

    /** Deletes the variable; success clears the ID. */
    method Delete(delete: (string, string) -> Option<string>) returns (err: Option<Error>, calls: seq<VariableCall>)
      modifies this`id
      ensures calls == [DeleteSingle(projectID, old(id))]
      ensures match delete(projectID, old(id))
        case Some(cause) => err == Some(OperationError(DeletingVariable, old(id), cause)) && id == old(id)
        case None => err == None && id == ""
    {
      calls := [DeleteSingle(projectID, id)];
      var failure := delete(projectID, id);
      if failure.Some? {
        return Some(OperationError(DeletingVariable, id, failure.value)), calls;
      }
      id := "";
      err := None;
    }
  }
}
