# Octopus Deploy resource adapters: variables, deployment-target triggers, lifecycles

This project models three resource adapters of a Terraform provider for
Octopus Deploy. Each adapter turns declared attributes into an object of the
deployment service and keeps the ID the configuration engine tracks in step
with the service.

- **Variables** (`Variables.dfy`). The import ID `ProjectID:VariableID` is split on
  `:` (`Strings.dfy` models Go's `strings.Split`). The sensitivity flag must agree
  with the `Sensitive` type. The value sent comes from `sensitive_value` or `value`,
  and a prompt is attached only when the prompt set has exactly one element.
  Adding or updating one variable returns the project's whole variable list.
  The adapter then adopts the ID of the first variable in that list whose name,
  type, description and sensitivity equal the local variable's, whose value is
  equal unless the returned variable is sensitive, and whose scope the client
  library says matches. Create stops on a scope-comparison error. Update only
  looks at the comparison's boolean. When nothing matches, the ID is cleared
  and an error naming the project is returned.
- **Deployment-target triggers** (`Triggers.dfy`). Event groups and event categories
  are checked against fixed allow-lists of five and nine values, and the first
  failing list rejects the build. Roles and environment IDs are copied through.
- **Lifecycles** (`Lifecycles.dfy`). Phases are built in order. A missing
  deployment-target list becomes empty. A retention policy replaces the
  constructor's default only when its block has exactly one element.

How the model is laid out:

- The engine's per-resource state is a class: the ID slot plus the attributes.
  Each create, read, update and delete operation is a method. Its `modifies`
  clause names exactly the fields the source sets, and its `ensures` give the
  new state and the error it returns.
- Remote API endpoints are function parameters, from request to response.
  Every operation also returns `calls`, the requests it sent, so "returns
  before any API call" reads `calls == []`.
- The client library's `MatchesScope` is a parameter. It returns whether the
  scopes match, plus an optional error, the same shape as Go's
  `(bool, _, error)`.
- `NewLifecycle` is a parameter too: a constructor that may refuse a name.
- The terraform SDK's `GetOk` reports "not set" for zero values (`""`, `false`,
  an empty list or set). So an absent attribute is its zero value, and
  "present" means non-empty.

Three facts about the code that the model keeps:

- The scope comparison is the client library's. The model gives it no set
  semantics.
- The "unable to locate" error names only the project, not the variable.
- Update discards the comparison's error and adopts exactly when its boolean
  says the scopes match. An error reported together with `false` is therefore
  a non-match.

## Model

| member | source | states |
|---|---|---|
| Strings.Split | octopusdeploy/resource_variable.go:109 | the parts number one more than the separators, contain no separator, and join back to the input |
| Strings.SplitJoin | octopusdeploy/resource_variable.go:109 | splitting the join of separator-free parts gives those parts back (Split is Join's inverse) |
| Variables.ParseImportID | octopusdeploy/resource_variable.go:109-112 | an import ID is accepted iff it holds exactly one `:`; the halves joined by `:` give the ID back and contain no `:`; anything else yields the fixed format error |
| Variables.ImportIDRoundTrip | octopusdeploy/resource_variable.go:108-117 | any two colon-free IDs joined by `:` parse back to that project ID and variable ID |
| Variables.ImportIDExample | octopusdeploy/resource_variable.go:108-117 | `Projects-1:Variables-2` parses to project `Projects-1` and variable `Variables-2` |
| Variables.ImportIDWithoutColonRejected | octopusdeploy/resource_variable.go:110-112 | `bad-id` is rejected with the format error |
| Variables.ImportIDWithThreePartsRejected | octopusdeploy/resource_variable.go:110-112 | `a:b:c` is rejected with the format error |
| Variables.ValidateVariable | octopusdeploy/resource_variable.go:286-299 | no error iff `is_sensitive` holds exactly when the type is `Sensitive`; each mismatch direction gets its own message |
| Variables.ValidationMessagesDiffer | octopusdeploy/resource_variable.go:290-296 | the two mismatch directions yield different errors |
| Variables.BuildVariable | octopusdeploy/resource_variable.go:153-193 | the value comes from the sensitive value iff the variable is sensitive, otherwise from `value` (nil read as ""); a prompt is attached iff the prompt set has one element, and it is that element; name, type, description, flag and scope are copied |
| Variables.FieldsMatch | octopusdeploy/resource_variable.go:214 | the field test of create (and of update, line 251) holds iff the two variables agree on everything but ID, scope and prompt, the value being compared only when the returned variable is not sensitive |
| Variables.FirstMatch | octopusdeploy/resource_variable.go:213-227 | the reference outcome of the in-order search: an adopted ID is the ID of a returned variable, and a scope failure happens only under create's policy |
| Variables.Reconcile | octopusdeploy/resource_variable.go:213-224 | the in-order search loop returns exactly the first-match outcome (adopted ID, not found, or scope error) |
| Variables.FirstMatchAdopted | octopusdeploy/resource_variable.go:213-224 | an adopted ID belongs to a returned element whose fields and scope match, and every earlier element was passed over |
| Variables.FirstMatchAt | octopusdeploy/resource_variable.go:250-258 | conversely, the first matching element, with all earlier ones passed over, is the one whose ID is adopted |
| Variables.FirstMatchScopeFailed | octopusdeploy/resource_variable.go:215-218 | a scope-comparison error ends the search only under create's policy, at a field-matching element whose comparison reported that error, with all earlier elements passed over |
| Variables.FirstMatchNotFound | octopusdeploy/resource_variable.go:226-227 | the search finds nothing iff every returned element is passed over |
| Variables.PoliciesAgreeWithoutScopeErrors | octopusdeploy/resource_variable.go:252 | when no scope comparison reports an error, create's and update's searches give the same outcome |
| Variables.SensitiveValuesNotCompared | octopusdeploy/resource_variable.go:214 | changing the values of sensitive returned variables (masked or withheld) never changes the outcome |
| Variables.PlainVariableFound | octopusdeploy/resource_variable.go:213-221 | a `Port`/`String`/`8080` variable returned with a matching `Env-1` scope is adopted |
| Variables.PlainVariableOtherScopeNotFound | octopusdeploy/resource_variable.go:250-261 | the same variable returned with a non-matching `Env-2` scope is not found |
| Variables.MaskedSensitiveVariableFound | octopusdeploy/resource_variable.go:251-255 | a sensitive `DBPassword` returned with value `***` is still adopted |
| Variables.VariableResourceData.Import | octopusdeploy/resource_variable.go:108-117 | on a well-formed ID it sets the project ID to part 0 and the ID to part 1; a malformed ID returns the error and changes nothing |
| Variables.VariableResourceData.Read | octopusdeploy/resource_variable.go:120-151 | GET by project and ID; an error is wrapped with the ID; a nil result clears the ID and succeeds; otherwise name, type and description are refreshed, and the value is set to nil when sensitive, else to the returned value |
| Variables.VariableResourceData.Create | octopusdeploy/resource_variable.go:195-228 | a validation failure returns before any API call; an add error is wrapped with the name; otherwise the ID becomes the first match, a scope error is returned unchanged, and no match clears the ID and returns an error naming the project |
| Variables.VariableResourceData.Update | octopusdeploy/resource_variable.go:230-262 | a validation failure returns before any API call; the sent variable carries the tracked ID; an update error is wrapped with the ID; the comparison's error is discarded and a returned variable is adopted exactly when its fields match and the boolean says the scopes match; no match clears the ID and returns an error naming the project |
| Variables.VariableResourceData.Delete | octopusdeploy/resource_variable.go:264-281 | deletes by project and ID; success clears the ID; an error is wrapped with the ID and leaves the ID unchanged |
| DeploymentTargetTriggers.FindDisallowed | octopusdeploy/resource_project_deployment_target_trigger.go:94 | no result iff every item is in the allow-list; a result is an item of the list that is not allowed |
| DeploymentTargetTriggers.NewDeploymentTargetTrigger | octopusdeploy/resource_project_deployment_target_trigger.go:80 | the constructed trigger has no ID, the given name, project ID and redeploy flag, and all four filter lists empty |
| DeploymentTargetTriggers.BuildTrigger | octopusdeploy/resource_project_deployment_target_trigger.go:75-133 | the build fails iff an event group is outside the five allowed values or an event category is outside the nine; a group failure takes precedence and names an offending group; a built trigger carries the groups, categories, roles and environment IDs unchanged |
| DeploymentTargetTriggers.RolesAndEnvironmentsNotValidated | octopusdeploy/resource_project_deployment_target_trigger.go:124-130 | any roles and environment IDs are accepted and copied into the filter |
| DeploymentTargetTriggers.InvalidGroupRejected | octopusdeploy/resource_project_deployment_target_trigger.go:82-99 | groups `Machine, Bogus` are rejected with an error naming `Bogus` |
| DeploymentTargetTriggers.TriggerResourceData.Create | octopusdeploy/resource_project_deployment_target_trigger.go:135-156 | a build error returns without an API call; an add error is wrapped with the name; the ID is set only when the returned ID is non-empty |
| DeploymentTargetTriggers.TriggerResourceData.Read | octopusdeploy/resource_project_deployment_target_trigger.go:158-182 | not found clears the ID and succeeds; otherwise name, redeploy flag and the four filter lists are refreshed |
| DeploymentTargetTriggers.TriggerResourceData.Update | octopusdeploy/resource_project_deployment_target_trigger.go:184-200 | a build error returns without an API call; the sent trigger carries the tracked ID; on success the ID becomes the returned ID |
| DeploymentTargetTriggers.TriggerResourceData.Delete | octopusdeploy/resource_project_deployment_target_trigger.go:202-215 | success clears the ID; an error is wrapped with the ID and leaves it unchanged |
| Lifecycles.GetRetentionPeriod | octopusdeploy/resource_lifecycle.go:167-182 | a policy is returned iff the block has exactly one element, with that element's unit and quantity |
| Lifecycles.SliceFromList | octopusdeploy/resource_lifecycle.go:189-190 | specified only as a plain copy of the configured list (absent stays absent) |
| Lifecycles.BuildPhase | octopusdeploy/resource_lifecycle.go:184-201 | both deployment-target lists are never nil (an absent list becomes empty, a given one is kept); name, minimum and optional flag are copied |
| Lifecycles.BuildPhases | octopusdeploy/resource_lifecycle.go:155-162 | the built phases have the input's length and are the input phases built element by element, in order |
| Lifecycles.Built | octopusdeploy/resource_lifecycle.go:141-162 | the reference lifecycle: it keeps the constructor's ID and name, its description is the configured one when given and the constructor's otherwise, and its phases are the constructor's followed by the configured phases, each built by BuildPhase, in order |
| Lifecycles.BuiltProperties | octopusdeploy/resource_lifecycle.go:141-162 | each retention policy keeps the constructor default unless its block has one element; the constructor's phases come first, followed by the built phases in input order, each with non-nil target lists |
| Lifecycles.AppendPhases | octopusdeploy/resource_lifecycle.go:158-161 | the append loop yields the given phases followed by the configured phases, each built by BuildPhase, in order |
| Lifecycles.BuildLifecycle | octopusdeploy/resource_lifecycle.go:133-165 | a constructor error is returned as is; otherwise the conditional assignments and the phase-append loop (AppendPhases) produce exactly the lifecycle `Built` describes |
| Lifecycles.LifecycleResourceData.Create | octopusdeploy/resource_lifecycle.go:109-131 | a constructor error returns without an API call; the ID is set only when the returned ID is non-empty |
| Lifecycles.LifecycleResourceData.Read | octopusdeploy/resource_lifecycle.go:203-224 | not found clears the ID and succeeds; otherwise name and description are refreshed |
| Lifecycles.LifecycleResourceData.Update | octopusdeploy/resource_lifecycle.go:226-245 | a constructor error returns without an API call; the sent lifecycle carries the tracked ID; on success the ID becomes the returned ID |
| Lifecycles.LifecycleResourceData.Delete | octopusdeploy/resource_lifecycle.go:247-261 | success clears the ID; an error is returned and the ID is unchanged |

## Left out

- The process-wide mutex around variable create, update and delete (resource_variable.go:16, 196-197) is left out: operations are modelled as sequential.
- HTTP calls to the service are not modelled. Each endpoint is a function from request to response (error, nil, or object).
- `MatchesScope` is a client-library call and stays an opaque parameter. Its second result (a scope value) is ignored, as the source ignores it.
- `tfVariableScopetoODVariableScope` is not part of this model. The scope is carried as an attribute, with dimensions as the service names them.
- `model.NewLifecycle` is not part of this model. It is a constructor parameter, so its defaults and its refusal rule are not modelled.
- `model.NewVariable` (resource_variable.go:176) is not part of this model. BuildVariable takes it to copy the name, type, value, description, scope and sensitivity flag into the new variable, with an empty ID and no prompt.
- `model.NewProjectDeploymentTargetTrigger`, `AddEventGroups` and `AddEventCategories` are library code. They are modelled as an empty filter and as appending to a list.
- `validateAllSliceItemsInSlice` is not part of this model. FindDisallowed specifies it only as "returns an item outside the allow-list, if there is one".
- SliceFromList: `getSliceFromTerraformTypeList` is not part of this model, so it is specified only as a plain copy of the configured list.
- `isEmpty` is not shown. It is taken to mean "is the empty string".
- Go's nil-versus-empty slice distinction is kept only for phase deployment-target lists, where the source normalises it. For trigger filters an empty list stands for nil.
- The `int` to `int32` conversions for retention quantities and phase minimums are not modelled. Values are taken to fit.
- Schema declarations, `diag` wrapping, `logResource`, `log.Println` and `diagValidate` are not modelled. They are framework configuration and logging.
- Read writes attributes and the ID slot. The engine's other bookkeeping is not modelled.
- `resource_azure_service_principal.go` is not modelled. Its logic lives in foreign libraries (`uuid.Parse`, the account constructor and `Validate`).
- `resource_project_test.go` is not modelled. It holds acceptance tests that need a live server.
- Error texts built with `fmt.Errorf`, and the text of `createResourceOperationError`, are modelled as structured values. They record the operation, the subject and the cause, not the formatted string.
