# nextunex, modelled in Dafny

nextunex is a trucking-operations web application: a Next.js front end backed
by Convex tables and HTTP actions, with Clerk sign-in and Camunda driving the
business processes. This project models its decision logic and its record
operations, and proves what they promise:

- **Convex tables** (`convex/internalAPI/*.ts`, `convex/places.ts`): tasks (both
  API versions), tramos, clientes, fletes, recorridos and places as in-memory
  tables (`Store.Table`, rows in creation order with a counter for fresh ids),
  with find-or-create, upsert by `placeId`, updates that drop absent fields and
  refuse an empty update, the "two newest by unidad" query and the
  `externalQueries` dispatch.
- **Camunda HTTP endpoints** (`convex/externalAPI/camunda.ts`): the status-code
  decisions of `/createTask` and `/deleteRecorrido`, and the `stops`/`vacio`
  parsing and the fixed order of mutations of `/newRecorrido`.
- **Routing** (`src/middleware.ts`): the sign-in, role and path redirect decision.
- **Dynamic Camunda forms**: the component dispatch and the completion payload
  of `DynamicCamundaForm.tsx`, the variable conversions and the ISO-date
  recogniser of `FormViewer.tsx`, the expression evaluator, the option
  resolution the four choice components share, and the checklist, radio, select,
  taglist, text and file-picker rules.
- **Freight planning UI**: the destination draft and list rules of
  `AddFreightForm.tsx` and `RouteBuilder.tsx`, the details editor of
  `FreightDetails.tsx` and the per-truck freight lists of `TruckList.tsx`.
- **Places autocomplete** (`src/components/ui/places-autocomplete.tsx`): the
  merge, deduplication and truncation of stored and Google suggestions, and the
  keyboard state machine.
- **Payroll**: the cut-off ticket card, the paysheet totals and submission, the
  additional-payments editor and the employee search.
- **Tasks UI**: the sidebar partition and the movement-report upload form.

Code that changes state step by step (table mutations, form handlers, the
keyboard machine, the list editors) is modelled by classes whose methods state
their whole new state; pure code (filters, decisions, parsers) is modelled by
functions and lemmas. What the program receives from outside (the clock, fresh
ids, `JSON.parse`, `eval`, `parseFloat`, number formatting, the Google service,
file uploads, Clerk's session) is a parameter of the member that uses it. The
modules `Wrappers`, `Strings`, `Seqs`, `JsValues` and `Store` model platform
behaviour (options, string functions, `Array.prototype` methods, JavaScript
values and objects, a Convex table) and have no rows below.

## Model

| member | source | states |
|---|---|---|
| TasksApi.NewTaskDefaults | convex/internalAPI/tasks.ts:15-22 | a new task is open, stamped with the given time, of type "any", keeps the variables, and is assigned to "general" exactly when no assignee (or "" or "general") was given |
| TasksApi.NewTaskDependsOnlyOnAsigneeAndVariables | convex/internalAPI/tasks.ts:12-24 | two calls whose effective assignee and variables agree insert the same document |
| TasksApi.ToggleTwice | convex/internalAPI/tasks.ts:29-32 | toggling sets `isCompleted` to the negation of its truthiness (so an unset flag becomes true), changes no other field, and toggling twice restores that task exactly when the flag was set |
| TasksApi.GetTasks | convex/internalAPI/tasks.ts:5-10 | every task, newest first: the rows in reverse creation order with strictly decreasing ids |
| TasksApi.AddTask | convex/internalAPI/tasks.ts:12-24 | exactly one row is appended, under the next id, holding the new task |
| TasksApi.ToggleTask | convex/internalAPI/tasks.ts:26-34 | an existing task is replaced by its toggled copy in place; a missing id leaves the table unchanged |
| TasksApi.DeleteTask | convex/internalAPI/tasks.ts:36-41 | the row with that id is gone, every other id still finds what it found before |
| TasksApi.CreateTestTask | convex/internalAPI/tasks.ts:43-57 | appends one fixed "subirReporteMovimientos" task assigned to "system" |
| LegacyTasksApi.NewLegacyTaskKeepsArguments | convex/internalAPI/tasks/tasks.ts:21-29 | the stored task keeps the text, assignee and data given, is open, is stamped with the time, and has one of the two admitted type literals |
| LegacyTasksApi.TypeNameInjective | convex/internalAPI/tasks/tasks.ts:13 | the two type literals are told apart by their stored names |
| LegacyTasksApi.GetTasks | convex/internalAPI/tasks/tasks.ts:4-9 | every task in reverse creation order |
| LegacyTasksApi.AddTask | convex/internalAPI/tasks/tasks.ts:11-31 | one row with the new task is appended under the next id |
| LegacyTasksApi.ToggleTask | convex/internalAPI/tasks/tasks.ts:33-41 | an existing task is toggled in place; a missing id changes nothing |
| LegacyTasksApi.DeleteTask | convex/internalAPI/tasks/tasks.ts:43-48 | the row with that id is removed, the others stay in order |
| Tramos.NewTramo | convex/internalAPI/tramos.ts:71-77 | the created segment has the requested origin and destination |
| Tramos.FindTramoByOrigenDestino | convex/internalAPI/tramos.ts:5-18 | the oldest stored segment with both ends asked for (every earlier row has other ends); none is found exactly when no stored segment has them |
| Tramos.GetAllTramos | convex/internalAPI/tramos.ts:21-28 | exactly `limit` (50 by default) segments, or all of them when there are fewer, newest first |
| Tramos.AddTramo | convex/internalAPI/tramos.ts:31-48 | returns the next id and appends exactly that segment |
| Tramos.FindOrCreateTramo | convex/internalAPI/tramos.ts:51-81 | the table and id are those of find-or-insert on the (origen, destino) pair, with kms defaulting to 0 |
| Tramos.FindOrCreateTramoIdempotent | convex/internalAPI/tramos.ts:51-81 | a second call for the same pair, whatever its kms, returns the same id and changes nothing; at most one row is added |
| Tramos.FindOrCreateTramoKeepsPairsUnique | convex/internalAPI/tramos.ts:51-81 | if at most one segment had the pair before, at most one has it after, and the returned id finds a segment with those ends |
| Tramos.PatchTramoChangesGivenFields | convex/internalAPI/tramos.ts:93-102 | every field given is overwritten, every field left out is kept; an empty patch is the identity |
| Tramos.UpdateTramo | convex/internalAPI/tramos.ts:84-105 | no fields gives the "No updates provided" error and no change; a missing id changes nothing and returns the NoSuchDocument error; otherwise the patched segment replaces the row and is returned |
| Tramos.DeleteTramo | convex/internalAPI/tramos.ts:108-116 | the row is removed, the id counter is unchanged, and success is reported |
| Clientes.FindClienteByRfc | convex/internalAPI/clientes.ts:5-15 | the oldest stored client with that RFC (every earlier row has another); none is found exactly when no client has it |
| Clientes.FindClienteByName | convex/internalAPI/clientes.ts:18-28 | the oldest stored client with that name (every earlier row has another); none is found exactly when no client has it |
| Clientes.GetAllClientes | convex/internalAPI/clientes.ts:31-38 | exactly `limit` (50 by default) clients, or all of them when there are fewer, newest first |
| Clientes.AddCliente | convex/internalAPI/clientes.ts:41-54 | returns the next id and appends exactly that client |
| Clientes.FindOrCreateCliente | convex/internalAPI/clientes.ts:57-80 | the table and id are those of find-or-insert by name, a new client getting an empty RFC |
| Clientes.FindOrCreateClienteIdempotent | convex/internalAPI/clientes.ts:57-80 | repeating the call returns the same id and changes nothing; names stay unique; the id finds a client with that name |
| Clientes.UpdateCliente | convex/internalAPI/clientes.ts:83-102 | no fields is an error with no change; a missing id changes nothing and returns the NoSuchDocument error; otherwise the given fields overwrite the stored client in place |
| Clientes.DeleteCliente | convex/internalAPI/clientes.ts:105-113 | the row is removed, the id counter is unchanged, and success is reported |
| Fletes.GetAllFletes | convex/internalAPI/fletes.ts:6-13 | exactly `limit` (50 by default) freights, or all of them when there are fewer, newest first |
| Fletes.AddFlete | convex/internalAPI/fletes.ts:16-39 | returns the next id and appends exactly the freight given |
| Fletes.FindOrCreateFlete | convex/internalAPI/fletes.ts:42-80 | the table and id are those of find-or-insert on the (cartaPorte, load, tramo) key |
| Fletes.FindOrCreateFleteKeepsExisting | convex/internalAPI/fletes.ts:52-79 | a second call with the same key returns the first id and changes nothing, even when the other fields differ; a freight already stored leaves the table as it was |
| Fletes.EmptyPatchIsIdentity | convex/internalAPI/fletes.ts:95-102 | a patch with no fields keeps the freight unchanged |
| Fletes.UpdateFlete | convex/internalAPI/fletes.ts:83-107 | no fields gives the "No updates provided" error and no change; a missing id changes nothing and returns the NoSuchDocument error; otherwise the patched freight replaces the row and is returned |
| Fletes.DeleteFlete | convex/internalAPI/fletes.ts:110-118 | the row is removed, the id counter is unchanged, and success is reported |
| Recorridos.AddRecorrido | convex/internalAPI/recorridos.ts:4-27 | returns the next id and appends exactly that trip |
| Recorridos.KmsOrZero | convex/internalAPI/recorridos.ts:63 | a missing distance becomes 0 |
| Recorridos.AddRecorridoWithOrigenDestino | convex/internalAPI/recorridos.ts:32-80 | the segment table is that of find-or-insert on (origen, destino); one trip pointing at the found or created segment is appended |
| Recorridos.AddRecorridoWithOrigenDestinoGrowth | convex/internalAPI/recorridos.ts:44-65 | at most one segment is added, the pair stays unique, and the trip's segment has the requested ends |
| Recorridos.DeleteRecorrido | convex/internalAPI/recorridos.ts:83-91 | the row is removed, the id counter is unchanged, and success is reported |
| Recorridos.Detalle | convex/internalAPI/recorridos.ts:106-117 | the trip is kept; origin and destination are present exactly when its segment exists and are that segment's; load and carta porte likewise for its freight |
| Recorridos.AnterioresSpec | convex/internalAPI/recorridos.ts:98-102 | the two newest trips of the unit (fewer when it has fewer): all stored and of that unit, newest first, and every trip of the unit left out is older than each one returned |
| Recorridos.GetRecorridosAnteriores | convex/internalAPI/recorridos.ts:93-124 | exactly the trips of `Anteriores` (at most two, newest first), each with its segment and freight details present exactly when those exist |
| ExternalQueries.GetData | convex/internalAPI/externalQueries.ts:5-20 | any other reference returns nothing; "recorridosAnteriores" fails exactly when `variables` is null or undefined, returns exactly the unit's `Anteriores` when `variables.unidad` is a string, and an empty list when it is not |
| Places.InsertByName | convex/places.ts:18 | inserting into the name order adds exactly that row |
| Places.ByName | convex/places.ts:16-18 | the name index holds exactly the stored rows |
| Places.InsertByNameSorted | convex/places.ts:18 | insertion keeps the name order |
| Places.ByNameSorted | convex/places.ts:16-18 | the index order is sorted by name and a permutation of the rows |
| Places.SearchFilterAdmitsAll | convex/places.ts:19-24 | the `name >= term OR name <= term + "￿"` filter passes every name |
| Places.FilterByNameIsIdentity | convex/places.ts:19-24 | so the filter removes nothing |
| Places.SearchPlaces | convex/places.ts:5-29 | a blank term gives no places; otherwise the first `limit` (10 by default) places in name order, drawn from the table |
| Places.GetAllPlaces | convex/places.ts:32-39 | exactly `limit` (50 by default) places, or all of them when there are fewer, in creation order |
| Places.GetPlaceByPlaceId | convex/places.ts:42-52 | the oldest stored place with that Google id (every earlier row has another); none is found exactly when no place has it |
| Places.Merge | convex/places.ts:84-87 | the spread of the arguments: name, address, id, types, position and formatted address are the given ones, and each optional field is the given one when present and the stored one otherwise |
| Places.MergeIdempotent | convex/places.ts:84-87 | merging the same arguments a second time changes nothing |
| Places.MergeOfCompleteArgs | convex/places.ts:84-87 | arguments that give every optional field replace the stored place entirely |
| Places.Patched | convex/places.ts:84-87 | an update keeps the creation time and stamps the update time |
| Places.NewPlace | convex/places.ts:90-94 | a new place has both times set to now and exactly the arguments |
| Places.UpsertPlace | convex/places.ts:55-97 | the table becomes the upsert result; an id is returned exactly when no place had that Google id, and it is the next id |
| Places.UpsertKeepsPlaceIdsUnique | convex/places.ts:73-96 | at most one row is added, Google ids stay unique, and the first place with the id carries the new update time |
| Places.ReplaceFirstWhere | convex/places.ts:82-87 | patching the first place with an id leaves it the first with that id |
| Places.DeletePlace | convex/places.ts:100-107 | the row is removed and the id counter is unchanged |
| Middleware.Decide | src/middleware.ts:7-43 | not signed in sends to sign-in with the return URL; "/" sends each role home and others to /404; a route of the other role sends to "/"; the request passes exactly when signed in, not "/", and the role owns the route |
| Middleware.RoutesAreDisjoint | src/middleware.ts:4-5 | no path is both a general and an operator route |
| Middleware.OwnRoutesPass | src/middleware.ts:30-41 | a signed-in user reaches the routes of their own role |
| CamundaHttp.KnownWords | convex/externalAPI/camunda.ts:21 | the literals compared against are plain words, so loose equality applies to them |
| CamundaHttp.LooseEqualsWordExamples | convex/externalAPI/camunda.ts:21 | `!=` against a word: the same string or a one-element array holding it are equal; a different case, undefined, null, an object or a boolean are not |
| CamundaHttp.OptionalString | convex/externalAPI/camunda.ts:47-67 | an optional string argument accepts exactly undefined (as absent) or a string (as itself) |
| CamundaHttp.OptionalNumber | convex/externalAPI/camunda.ts:47-67 | an optional number argument accepts exactly undefined or a number |
| CamundaHttp.StringsOf | convex/externalAPI/camunda.ts:54-55 | a list is a list of strings exactly when every item is a string, and then keeps them one for one |
| CamundaHttp.OptionalStrings | convex/externalAPI/camunda.ts:54-55 | an optional string-list argument accepts exactly undefined or an array of strings |
| CamundaHttp.TaskArgs | convex/externalAPI/camunda.ts:47-67 | accepted arguments are open, not permanent, stamped with the time, carry the body's variables and `id` as `camundaId` |
| CamundaHttp.CreateTaskDecision | convex/externalAPI/camunda.ts:11-17 | a body that is not JSON, or is null or undefined, fails with 500 |
| CamundaHttp.Decide | convex/externalAPI/camunda.ts:21-67 | other events are ignored; a missing or blank id is rejected; a task is created exactly for a "create" event with a non-blank string id whose fields validate, and with those fields |
| CamundaHttp.CreateTaskResponse | convex/externalAPI/camunda.ts:21-102 | ignored events answer 200, a missing id 400, a created task 201 and a failure 500 |
| CamundaHttp.CreateTask | convex/externalAPI/camunda.ts:7-105 | the response is that of the decision; a task is appended exactly when the decision is to create it, and nothing changes otherwise |
| CamundaHttp.ParseStops | convex/externalAPI/camunda.ts:135-141 | "NO" gives no stops; another string is split on commas, the pieces joining back to it; any other value throws |
| CamundaHttp.Vacio | convex/externalAPI/camunda.ts:146 | the load is empty unless `vacio` loosely equals "NO" |
| CamundaHttp.RecorridoStageSpec | convex/externalAPI/camunda.ts:155-173 | the last step adds exactly one trip on success (status 200) and none on failure (500), pointing at the given segment and freight; the other tables are untouched |
| CamundaHttp.FleteStageSpec | convex/externalAPI/camunda.ts:143-173 | the freight step adds at most one freight, then the trip step; on success the trip's freight runs over the freight segment |
| CamundaHttp.ClienteStageSpec | convex/externalAPI/camunda.ts:131-173 | from the client step on, at most one client and one freight are added and one trip on success, every table only grows |
| CamundaHttp.TramoStepSpec | convex/externalAPI/camunda.ts:118-127 | a find-or-create of a segment adds at most one row, returns an id with the requested ends, and keeps every stored segment |
| CamundaHttp.FleteTramoStageSpec | convex/externalAPI/camunda.ts:124-173 | from the freight segment on, each table grows by at most one row, and on success the trip's freight runs between the body's freight ends |
| CamundaHttp.NewRecorridoSpec | convex/externalAPI/camunda.ts:107-192 | the whole `/newRecorrido` effect: at most two segments, one client, one freight and one trip are added, a non-JSON body changes nothing, and on success the new trip runs between the trip ends and its freight between the freight ends |
| CamundaHttp.DbOf | convex/externalAPI/camunda.ts:107-192 | the snapshot of the four tables is well formed exactly when each table is |
| CamundaHttp.NewRecorrido | convex/externalAPI/camunda.ts:107-192 | the handler leaves the four tables and the status given by the `/newRecorrido` effect |
| CamundaHttp.RunRecorridoTramo | convex/externalAPI/camunda.ts:116-173 | the handler's first stage leaves exactly the state of its specification function |
| CamundaHttp.RunFleteTramo | convex/externalAPI/camunda.ts:124-173 | the freight-segment stage leaves exactly the state of its specification function |
| CamundaHttp.RunCliente | convex/externalAPI/camunda.ts:131-173 | the client stage leaves exactly the state of its specification function |
| CamundaHttp.RunFlete | convex/externalAPI/camunda.ts:135-173 | the freight stage leaves exactly the state of its specification function |
| CamundaHttp.RunRecorrido | convex/externalAPI/camunda.ts:155-173 | the trip stage leaves exactly the state of its specification function |
| CamundaHttp.DeleteRecorridoDecision | convex/externalAPI/camunda.ts:197-218 | a falsy `recorrido` is rejected; a deletion happens exactly for a non-empty string the id validator accepts, and of that id |
| CamundaHttp.DeleteRecorridoRoute | convex/externalAPI/camunda.ts:194-250 | failure answers 500 and a missing id 400, both with no change; a deletion answers 200 and removes the trip |
| CamundaHttp.GetRecorridosAnterioresRoute | convex/externalAPI/camunda.ts:254-296 | 200 exactly when the body holds a string `unidad`, and then the list is exactly `GetRecorridosAnteriores` for that unit; otherwise 500 and no list |
| DynamicForm.FlagOnOnlyForTrueAndOn | src/components/forms/DynamicCamundaForm.tsx:279 | a `multiple`/`readonly` flag is on only for `true` and the string "on"; "true", "ON", 1, false and undefined leave it off |
| DynamicForm.Render | src/components/forms/DynamicCamundaForm.tsx:219-427 | each component renders under its own id; exactly the unhandled tags show the "unsupported" notice with the tag; flags follow the "true or on" rule; a datetime's subtype defaults to "date" |
| DynamicForm.RenderedValueFallsBack | src/components/forms/DynamicCamundaForm.tsx:239-410 | every input but text and expression is given a value; a truthy stored value is passed as is, a falsy one becomes the kind's empty value ("", false, null or []), and the number input gets the stored value unchanged |
| DynamicForm.RenderAll | src/components/forms/DynamicCamundaForm.tsx:475 | one rendering per component, in order |
| DynamicForm.WrappedDiffers | src/components/forms/DynamicCamundaForm.tsx:141-143 | wrapping a value as `{value: v}` always changes it, adding one level |
| DynamicForm.FormVariablesKeys | src/components/forms/DynamicCamundaForm.tsx:134-149 | the variables have distinct keys, and a key is present exactly when some component with that key has a stored value under its id |
| DynamicForm.FormVariablesValue | src/components/forms/DynamicCamundaForm.tsx:139-145 | the last submitted component with a key decides that variable: `{value: formData[id]}` |
| DynamicForm.KeyedWriteIsNotSubmitted | src/components/forms/DynamicCamundaForm.tsx:140 | an input that reports its value under its Camunda key, when the key differs from its id, is never picked up by the id-based lookup that builds the variables |
| DynamicForm.PickValue | src/components/forms/DynamicCamundaForm.tsx:212-217 | a null pick is stored as "no file" and nothing else is |
| DynamicForm.FormSession.constructor | src/components/forms/DynamicCamundaForm.tsx:90-94 | the session starts with the form definition, no data and not uploading |
| DynamicForm.FormSession.BuildFormVariables | src/components/forms/DynamicCamundaForm.tsx:134-149 | the variables of the stored data, or none when there is no definition |
| DynamicForm.FormSession.HandleInputChange | src/components/forms/DynamicCamundaForm.tsx:205-210 | the value is stored under that id; every other id keeps its value; a new id goes last in key order |
| DynamicForm.FormSession.HandleFileChange | src/components/forms/DynamicCamundaForm.tsx:212-217 | the picked files, or no file, are stored under that id; the rest is unchanged |
| DynamicForm.FormSession.HandleSubmit | src/components/forms/DynamicCamundaForm.tsx:429-463 | the completion request carries the stored task's Camunda id (or "") and the built variables; success toggles a non-permanent task once; failure or a permanent task leaves the tasks as they were; the notice tells which; uploading ends false |
| FormViewer.HeadTextAccepted | src/components/forms/FormViewer.tsx:133 | every date-and-minute head `dddd-dd-ddTdd:dd` built from digits is 16 characters and matches the head of the ISO pattern |
| FormViewer.ZoneTextAccepted | src/components/forms/FormViewer.tsx:133 | every zone suffix (none, Z/z, or a signed `dd:dd` offset) matches the zone part of the pattern |
| FormViewer.TailTextAccepted | src/components/forms/FormViewer.tsx:133 | optional seconds, then optional milliseconds, then a zone, matches the tail of the pattern |
| FormViewer.IsoTextAccepted | src/components/forms/FormViewer.tsx:127-134 | every string assembled from well-formed parts is an ISO date string |
| FormViewer.ZoneOf | src/components/forms/FormViewer.tsx:133 | an accepted zone suffix is the text of a well-formed zone |
| FormViewer.MillisZoneOf | src/components/forms/FormViewer.tsx:133 | an accepted milliseconds-and-zone tail splits into three digits (or none) and a zone that rebuild it |
| FormViewer.TailOf | src/components/forms/FormViewer.tsx:133 | an accepted tail splits into two-digit seconds, three-digit milliseconds (each optional) and a zone that rebuild it |
| FormViewer.HeadSplit | src/components/forms/FormViewer.tsx:133 | an accepted head is four, two and two digits, the separator, and two and two digits, with its dashes and colon |
| FormViewer.PartsOf | src/components/forms/FormViewer.tsx:127-134 | every ISO date string is the text of well-formed parts, so the pattern accepts exactly the assembled strings |
| FormViewer.IsoExampleMillisUtc | src/components/forms/FormViewer.tsx:129 | the first documented example format is accepted |
| FormViewer.IsoExampleSecondsUtc | src/components/forms/FormViewer.tsx:130 | the second documented example format is accepted |
| FormViewer.IsoExampleMinutesOffset | src/components/forms/FormViewer.tsx:131 | the third documented example format is accepted |
| FormViewer.IsoExampleSecondsOffset | src/components/forms/FormViewer.tsx:132 | the fourth documented example format is accepted |
| FormViewer.IsoLowerCaseAccepted | src/components/forms/FormViewer.tsx:133 | the `i` flag admits a lower-case `t` and `z` |
| FormViewer.IsoNearMissesRejected | src/components/forms/FormViewer.tsx:133 | a bare date, two-digit milliseconds and trailing space are rejected |
| FormViewer.MatchFrom | src/components/forms/FormViewer.tsx:118 | matching the spelled-out date pattern from a position ends at a later position inside the string |
| FormViewer.IsoWithSecondsIsDate | src/components/forms/FormViewer.tsx:119 | an ISO string with a `T` and seconds is also a date string for the incoming conversion |
| FormViewer.DateStringExampleIsoLike | src/components/forms/FormViewer.tsx:119 | an ISO-like prefix makes a date string |
| FormViewer.DateStringExampleSlashes | src/components/forms/FormViewer.tsx:120 | a month/day/year date is a date string |
| FormViewer.DateStringExampleSlashesPrefix | src/components/forms/FormViewer.tsx:120 | the slash pattern is anchored only at the start, so trailing text is allowed |
| FormViewer.SpelledExampleMatches | src/components/forms/FormViewer.tsx:116-118 | the documented "Sep 4, 2025, 2:18:51 AM" example matches the whole spelled-out pattern |
| FormViewer.DateStringExampleSpelled | src/components/forms/FormViewer.tsx:116-118 | so it is a date string |
| FormViewer.DateStringRejectsBareDate | src/components/forms/FormViewer.tsx:115-124 | a bare ISO date matches none of the three patterns |
| FormViewer.DateStringRejectsIsoWithoutSeconds | src/components/forms/FormViewer.tsx:115-124 | an ISO date-time without seconds is not a date string, although it is an ISO date string |
| FormViewer.Spread | src/components/forms/FormViewer.tsx:22 | spreading an object copies its fields in order; spreading an array gives its items under the keys "0", "1", … |
| FormViewer.ConvertIn | src/components/forms/FormViewer.tsx:24-50 | non-strings are kept; a string starting with `[` or `{` becomes its parse, or stays when parsing fails; a date string becomes its ISO text when the date is valid; anything else is kept |
| FormViewer.ToForm | src/components/forms/FormViewer.tsx:18-54 | a falsy or non-object value is returned as is; otherwise each spread field is converted in place |
| FormViewer.ToFormKeepsKeys | src/components/forms/FormViewer.tsx:18-54 | the keys and their order are kept, and only string values can change |
| FormViewer.CamundaToForm | src/components/forms/FormViewer.tsx:18-54 | the loop over the keys computes `ToForm` |
| FormViewer.UploadAll | src/components/forms/FormViewer.tsx:83-96 | the collected storage ids are truthy and no more than the entries |
| FormViewer.UploadAllFailsIffSomeUploadThrows | src/components/forms/FormViewer.tsx:81-105 | the file step fails exactly when some file's upload throws |
| FormViewer.UploadAllKeepsFileOrder | src/components/forms/FormViewer.tsx:88-95 | when every upload returns a truthy id, the ids come out in the files' order |
| FormViewer.UploadAllFailurePersists | src/components/forms/FormViewer.tsx:88-95 | a throw on an earlier file fails the whole step |
| FormViewer.ReplaceFirstZ | src/components/forms/FormViewer.tsx:73 | `replace('Z', '+0000')` changes nothing without a Z and turns a single final Z into "+0000" |
| FormViewer.ConvertOut | src/components/forms/FormViewer.tsx:63-109 | a value is left as is exactly for an ISO string whose date is invalid or a `files::` reference that yields no ids; a valid ISO date becomes a Date variable; a plain string, a non-string and a failed upload are wrapped as `{value}`; ids become `{value: ids}` |
| FormViewer.ToCamunda | src/components/forms/FormViewer.tsx:58-112 | a falsy or non-object value is returned as is; otherwise the keys are kept and each value is converted |
| FormViewer.UploadFiles | src/components/forms/FormViewer.tsx:83-96 | the loop throws exactly when `UploadAll` fails and otherwise collects its ids |
| FormViewer.FormToCamunda | src/components/forms/FormViewer.tsx:58-112 | the loop over the keys computes `ToCamunda` |
| FormViewer.Submit | src/components/forms/FormViewer.tsx:219-257 | the completion request carries the Camunda id (or "") and the converted variables; success toggles a non-permanent task once; otherwise the tasks are unchanged; the notice tells which |
| CamundaExpression.StripEquals | src/components/forms/camunda/CamundaExpression.tsx:24 | a leading "=" is removed and nothing else changes; text without it is kept |
| CamundaExpression.StripEqualsOnce | src/components/forms/camunda/CamundaExpression.tsx:24 | only one leading "=" is removed |
| CamundaExpression.ReplaceWordNoMatch | src/components/forms/camunda/CamundaExpression.tsx:38-39 | a key that occurs nowhere as a whole word leaves the text unchanged |
| CamundaExpression.ReplaceWordSelf | src/components/forms/camunda/CamundaExpression.tsx:38-39 | replacing a word by itself leaves the text unchanged |
| CamundaExpression.ReplaceWordExample | src/components/forms/camunda/CamundaExpression.tsx:38-39 | the `\b` boundaries replace the lone `a` in "a+ab" but not the one inside "ab" |
| CamundaExpression.SubstituteSkipsNullish | src/components/forms/camunda/CamundaExpression.tsx:34-41 | when every variable is null or undefined the text is not touched |
| CamundaExpression.SubstituteFailsIff | src/components/forms/camunda/CamundaExpression.tsx:34-41 | substitution throws exactly when a variable with a value has a key that does not compile as a regular expression |
| CamundaExpression.SubstituteFailurePersists | src/components/forms/camunda/CamundaExpression.tsx:34-41 | a throw on an earlier key aborts the whole substitution |
| CamundaExpression.SubstituteVariables | src/components/forms/camunda/CamundaExpression.tsx:34-41 | the forEach loop computes the substitution function |
| CamundaExpression.LetterBlocksEvaluation | src/components/forms/camunda/CamundaExpression.tsx:46 | a text containing a letter is never passed to `eval` |
| CamundaExpression.EvaluationNullIff | src/components/forms/camunda/CamundaExpression.tsx:21-60 | the evaluator never throws: the result is null exactly when substitution throws or `eval` itself returns null, and whatever is neither null nor a string is a value `eval` returned |
| CamundaExpression.GuardAdmitsRegExpLiterals | src/components/forms/camunda/CamundaExpression.tsx:46 | the arithmetic guard lets the regular-expression literal "/1/" and the sum "/1/+1" through to `eval` |
| CamundaExpression.EvaluationKeepsNonArithmetic | src/components/forms/camunda/CamundaExpression.tsx:44-51 | a substituted text that is not pure arithmetic is returned as the string itself, whatever `eval` would do |
| CamundaExpression.EvaluationOfUnsetVariable | src/components/forms/camunda/CamundaExpression.tsx:36-51 | "=x*2" with `x` null stays the text "x*2" |
| CamundaExpression.EvaluateExpression | src/components/forms/camunda/CamundaExpression.tsx:21-60 | the evaluator method computes `Evaluation` |
| CamundaExpression.UpdateSettles | src/components/forms/camunda/CamundaExpression.tsx:66-69 | a primitive update is due exactly when the stored value differs from the computed one, and after the write none is due; an object result is due again even right after it was written |
| CamundaExpression.RegExpResultNeverSettles | src/components/forms/camunda/CamundaExpression.tsx:44-69 | for "=/1/", when `eval` returns an object, that object is the computed value and a write is still due after writing it |
| CamundaExpression.RunEffect | src/components/forms/camunda/CamundaExpression.tsx:63-70 | the effect writes the computed value under the input key exactly when it is not strictly equal to the stored one (always for an object), and afterwards that key holds it |
| ChoiceOptions.PositionValue | src/components/forms/camunda/CamundaSelect.tsx:75 | a fallback value is "option_" followed by the index |
| ChoiceOptions.Normalise | src/components/forms/camunda/CamundaSelect.tsx:73-76 | null and undefined throw; a non-empty string is its own label and value; an empty string gets its position value; an object with label and value keeps them |
| ChoiceOptions.StringItemValueNonEmpty | src/components/forms/camunda/CamundaSelect.tsx:75 | a string item always gets a non-empty value, and empty strings at different positions get different values |
| ChoiceOptions.NormaliseAll | src/components/forms/camunda/CamundaSelect.tsx:100-103 | mapping throws exactly when some item is null or undefined, and otherwise normalises each item by its index |
| ChoiceOptions.NormaliseStrings | src/components/forms/camunda/CamundaSelect.tsx:100-103 | a list of non-empty strings gives options labelled and valued by the strings |
| ChoiceOptions.ExpressionOptionsNeedArray | src/components/forms/camunda/CamundaSelect.tsx:55-87 | options come from an expression only when its substituted text evaluates to an array, one option per item |
| ChoiceOptions.EvaluateOptionsExpression | src/components/forms/camunda/CamundaSelect.tsx:55-87 | the evaluator method computes the expression options |
| ChoiceOptions.ResolvePrecedence | src/components/forms/camunda/CamundaSelect.tsx:90-111 | static values, even an empty list, win and ignore the form data; an active key source makes the expression irrelevant; otherwise the expression or nothing; only the key source can throw |
| ChoiceOptions.KeySourceNonArray | src/components/forms/camunda/CamundaSelect.tsx:96-104 | a truthy variable that is not an array gives no options and does not fall through to the expression |
| ChoiceOptions.Resolve | src/components/forms/camunda/CamundaSelect.tsx:90-111 | the resolving effect computes `ResolveOptions` |
| ChoiceOptions.FindValue | src/components/forms/camunda/CamundaSelect.tsx:116 | `find` by value returns the first matching option, and nothing exactly when none matches |
| ChoiceOptions.CaptionOr | src/components/forms/camunda/CamundaSelect.tsx:136-139 | the label of the first option with that value, or the fallback when none has it |
| ChoiceOptions.StrArr | src/components/forms/camunda/CamundaChecklist.tsx:102-117 | a selection is passed on as the array of its strings, in order |
| CamundaText.HeadingPrefix | src/components/forms/camunda/CamundaText.tsx:13-35 | the heading marker of level 1 to 3 is that many `#` and a space |
| CamundaText.ParseText | src/components/forms/camunda/CamundaText.tsx:9-43 | nothing is shown exactly for a missing or empty text; a heading is its marker followed by the content; otherwise the whole text is a paragraph and starts with no marker |
| CamundaText.PrefixesDisjoint | src/components/forms/camunda/CamundaText.tsx:13-35 | no text starts with two heading markers, so the order of the tests does not matter |
| CamundaText.HeadingRoundTrip | src/components/forms/camunda/CamundaText.tsx:13-35 | a marker followed by any content parses back to that heading and content |
| CamundaText.NonHeadingsAreParagraphs | src/components/forms/camunda/CamundaText.tsx:37-42 | four `#`, or `#` without a space, is a paragraph |
| CamundaFilepicker.FileChange | src/components/forms/camunda/CamundaFilepicker.tsx:31-40 | the pick is refused exactly when its first file exceeds the size limit; otherwise no files gives "no file" and one or more gives the first file |
| CamundaFilepicker.SizeGateBoundary | src/components/forms/camunda/CamundaFilepicker.tsx:25-34 | a file of exactly the limit passes and one byte more is refused; a zero limit disables the check; the default limit is 10 MB |
| CamundaFilepicker.HandleFileChange | src/components/forms/camunda/CamundaFilepicker.tsx:29-40 | an alert is shown exactly when the pick is refused, and then nothing is stored; otherwise the pick is stored under the input key |
| CamundaFilepicker.AcceptHint | src/components/forms/camunda/CamundaFilepicker.tsx:66 | the upper-cased accept list with every dot removed: no dots, no lower-case letters, and as long as the list minus its dots |
| CamundaFilepicker.AcceptHintExample | src/components/forms/camunda/CamundaFilepicker.tsx:66 | ".pdf,.png" is shown as "PDF,PNG" |
| Strings.RemoveCharCounts | src/components/forms/camunda/CamundaFilepicker.tsx:66 | removing a character drops every copy of it and keeps every other character as often as before and in its order |
| CamundaSelect.CurrentValue | src/components/forms/camunda/CamundaSelect.tsx:52 | a set value wins, else the default, else ""; the result is empty exactly when both are empty |
| CamundaSelect.DefaultToApply | src/components/forms/camunda/CamundaSelect.tsx:114-121 | the default is applied exactly when it is non-empty, no value is set and some option has it |
| CamundaSelect.DefaultAppliedOnce | src/components/forms/camunda/CamundaSelect.tsx:114-121 | once the default is applied the effect does nothing more; a set value is never overwritten |
| CamundaSelect.FilteredOptions | src/components/forms/camunda/CamundaSelect.tsx:127-133 | without search or term every option is shown; otherwise exactly the options whose label or value contain the term, ignoring case, in their order |
| CamundaSelect.SelectedLabel | src/components/forms/camunda/CamundaSelect.tsx:136-139 | the label of the first option with the current value, or "" when none has it |
| CamundaSelect.View | src/components/forms/camunda/CamundaSelect.tsx:156-205 | "no options available" exactly when there are none; the menu lists the filtered options; "no results" exactly when a search matches nothing |
| CamundaSelect.SelectState.constructor | src/components/forms/camunda/CamundaSelect.tsx:47-49 | no options, an empty search and a closed menu |
| CamundaSelect.SelectState.ResolveEffect | src/components/forms/camunda/CamundaSelect.tsx:90-111 | the options become the resolved ones, or stay when resolving throws; search and menu are untouched |
| CamundaSelect.SelectState.DefaultEffect | src/components/forms/camunda/CamundaSelect.tsx:114-121 | the default is written under the input key exactly when it is due |
| CamundaSelect.SelectState.HandleValueChange | src/components/forms/camunda/CamundaSelect.tsx:123-125 | the chosen value is written under the input key |
| CamundaSelect.SelectState.SetSearchTerm | src/components/forms/camunda/CamundaSelect.tsx:182 | only the search term changes |
| CamundaSelect.SelectState.SetOpen | src/components/forms/camunda/CamundaSelect.tsx:167 | only the open flag changes |
| CamundaChecklist.CheckboxChange | src/components/forms/camunda/CamundaChecklist.tsx:102-117 | the option ends checked exactly when asked; no other value comes or goes; checking appends once; unchecking keeps every other value, as often as before and in order; no duplicates appear |
| CamundaChecklist.CheckThenUncheck | src/components/forms/camunda/CamundaChecklist.tsx:102-117 | checking then unchecking a new value restores the list; checking or unchecking twice is the same as once |
| CamundaChecklist.UncheckLastShowsWarning | src/components/forms/camunda/CamundaChecklist.tsx:164 | a required list shows its warning when the last value is unchecked, and not once one is checked |
| CamundaChecklist.ChecklistState.constructor | src/components/forms/camunda/CamundaChecklist.tsx:41 | no options at first |
| CamundaChecklist.ChecklistState.ResolveEffect | src/components/forms/camunda/CamundaChecklist.tsx:79-100 | the options become the resolved ones, or stay when resolving throws |
| CamundaChecklist.ChecklistState.HandleCheckboxChange | src/components/forms/camunda/CamundaChecklist.tsx:102-117 | the new selection is written under the input key |
| CamundaRadio.View | src/components/forms/camunda/CamundaRadio.tsx:122-149 | the "no options" message exactly when there are none; otherwise the group shows every option |
| CamundaRadio.RadioState.constructor | src/components/forms/camunda/CamundaRadio.tsx:42 | no options at first |
| CamundaRadio.RadioState.ResolveEffect | src/components/forms/camunda/CamundaRadio.tsx:80-101 | the options become the resolved ones, or stay when resolving throws |
| CamundaRadio.RadioState.HandleValueChange | src/components/forms/camunda/CamundaRadio.tsx:103-105 | the chosen value is written under the input key |
| CamundaTaglist.AvailableOptions | src/components/forms/camunda/CamundaTaglist.tsx:110-112 | exactly the options not selected, each as often as in the list and in their order |
| CamundaTaglist.Selected | src/components/forms/camunda/CamundaTaglist.tsx:119-123 | selecting appends a value that was absent and keeps one that was present, keeping values distinct |
| CamundaTaglist.Unselected | src/components/forms/camunda/CamundaTaglist.tsx:114-117 | the tag is gone, and every other tag stays, as often as before and in order |
| CamundaTaglist.SelectAndUnselectMoveOptions | src/components/forms/camunda/CamundaTaglist.tsx:110-123 | a selected option leaves the drop-down, an unselected one returns, other available options stay |
| CamundaTaglist.SelectThenUnselect | src/components/forms/camunda/CamundaTaglist.tsx:114-123 | selecting and then unselecting a new value restores the selection |
| CamundaTaglist.TagLabel | src/components/forms/camunda/CamundaTaglist.tsx:128-131 | a tag shows the label of the first option with its value, or itself when no option has it |
| CamundaTaglist.AllSelectedHidesDropDown | src/components/forms/camunda/CamundaTaglist.tsx:212 | with every option selected the drop-down is hidden, even when open |
| CamundaTaglist.TaglistState.constructor | src/components/forms/camunda/CamundaTaglist.tsx:45-47 | no options, empty input, closed |
| CamundaTaglist.TaglistState.ResolveEffect | src/components/forms/camunda/CamundaTaglist.tsx:86-107 | the options become the resolved ones, or stay when resolving throws; input and open flag untouched |
| CamundaTaglist.TaglistState.HandleSelect | src/components/forms/camunda/CamundaTaglist.tsx:119-126 | a new value is written under the input key, a present one writes nothing; the input is cleared and the drop-down closed |
| CamundaTaglist.TaglistState.HandleUnselect | src/components/forms/camunda/CamundaTaglist.tsx:114-117 | the selection without the tag is written under the input key |
| CamundaTaglist.TaglistState.SetInputValue | src/components/forms/camunda/CamundaTaglist.tsx:195 | only the typed text changes |
| CamundaTaglist.TaglistState.SetOpen | src/components/forms/camunda/CamundaTaglist.tsx:196-197 | only the open flag changes |
| PlacesAutocomplete.FromStored | src/components/ui/places-autocomplete.tsx:99-107 | a stored place becomes a suggestion with its Google id, formatted address as description, name as main text, address as secondary text, and its types |
| PlacesAutocomplete.StoredResults | src/components/ui/places-autocomplete.tsx:96-107 | the stored-places query still loading gives no suggestions; otherwise one suggestion per stored place, in order |
| PlacesAutocomplete.Dedupe | src/components/ui/places-autocomplete.tsx:133-136 | removing duplicates never lengthens the list |
| PlacesAutocomplete.DedupeKeepsFirsts | src/components/ui/places-autocomplete.tsx:133-136 | every kept suggestion is the first one with its id |
| PlacesAutocomplete.DedupeDistinctIds | src/components/ui/places-autocomplete.tsx:133-136 | the kept suggestions have distinct ids |
| PlacesAutocomplete.DedupeKeepsEveryId | src/components/ui/places-autocomplete.tsx:133-136 | every id of the input is still present |
| PlacesAutocomplete.DedupeDistinct | src/components/ui/places-autocomplete.tsx:133-136 | a list whose ids are already distinct is left unchanged |
| PlacesAutocomplete.DedupeKeepsPrefix | src/components/ui/places-autocomplete.tsx:127-136 | a distinct front part stays in front, unchanged, whatever follows |
| PlacesAutocomplete.SearchResults | src/components/ui/places-autocomplete.tsx:86-162 | a blank query clears the suggestions; without the service, on a failed status or a throw the stored places are shown; on success the first ten of the stored places followed by the Google predictions, duplicates by id removed, all with distinct ids |
| PlacesAutocomplete.StoredPlacesComeFirst | src/components/ui/places-autocomplete.tsx:127-138 | on success, stored places with distinct ids (at most ten) come first, unchanged |
| PlacesAutocomplete.NextIndex | src/components/ui/places-autocomplete.tsx:258-263 | arrow down moves one down, and stays at the last suggestion |
| PlacesAutocomplete.PrevIndex | src/components/ui/places-autocomplete.tsx:264-267 | arrow up moves one up, and from the first (or none) goes to none (-1) |
| PlacesAutocomplete.DownThenUp | src/components/ui/places-autocomplete.tsx:258-267 | down then up returns to the same selection when down could move, and down stays within the list |
| PlacesAutocomplete.DownWalksTheList | src/components/ui/places-autocomplete.tsx:258-263 | from no selection, n presses of arrow down select suggestion n-1, stopping at the last |
| PlacesAutocomplete.UpsertArgs | src/components/ui/places-autocomplete.tsx:226-239 | the saved place keeps the Google id, name and formatted address, and its address is the vicinity when non-empty, else the formatted address |
| PlacesAutocomplete.AutocompleteState.constructor | src/components/ui/places-autocomplete.tsx:55-59 | starts with the given text, closed, not loading, no suggestions and no selection |
| PlacesAutocomplete.AutocompleteState.SearchPlaces | src/components/ui/places-autocomplete.tsx:85-165 | the suggestions become the search results, loading ends unless the query was blank, and nothing else changes |
| PlacesAutocomplete.AutocompleteState.HandleKeyDown | src/components/ui/places-autocomplete.tsx:254-280 | keys do nothing while the list is closed or empty; the arrows move the selection; Enter asks for the details of a selected suggestion; Escape closes and clears the selection; the selection stays within the list |
| PlacesAutocomplete.AutocompleteState.HandleInput | src/components/ui/places-autocomplete.tsx:298-302 | typing sets the text, opens the list and clears the selection |
| PlacesAutocomplete.AutocompleteState.Focus | src/components/ui/places-autocomplete.tsx:303 | focusing opens the list and changes nothing else |
| PlacesAutocomplete.AutocompleteState.ClearInput | src/components/ui/places-autocomplete.tsx:282-288 | the text, suggestions and selection are cleared and the list closes, so no search is due and no list is shown |
| PlacesAutocomplete.AutocompleteState.PlaceDetailsArrived | src/components/ui/places-autocomplete.tsx:201-248 | loading ends; failed details change nothing else; successful ones upsert the place, put its name in the box, close the list, clear the selection, and are what the caller receives |
| Freight.PickKind | src/components/forms/freight/_components/AddFreightForm.tsx:210-215 | a stop kind literal is taken as chosen; any other value leaves the kind unchanged, so the kind stays one of the three literals |
| Freight.PickPriority | src/components/forms/freight/_components/AddFreightForm.tsx:288-293 | a priority literal is taken as chosen; any other value leaves it unchanged, so it stays one of the three literals |
| Freight.UpdateDetail | src/components/forms/freight/_components/FreightDetails.tsx:22-27 | `{...details, [field]: value}` sets that field and keeps every other one |
| Freight.UpdateDetailLaws | src/components/forms/freight/_components/FreightDetails.tsx:22-27 | writing a field's own value changes nothing, and of two writes to a field the last wins |
| Freight.AppendDraft | src/components/forms/freight/_components/AddFreightForm.tsx:67-79 | a destination is added exactly when the trimmed name and address are both non-empty; then the list gains one entry at the end, with the fresh id, the trimmed texts and the kind |
| Freight.AppendedIsTrimmed | src/components/forms/freight/_components/AddFreightForm.tsx:71-72 | the added name and address neither start nor end with white space |
| Freight.WithoutDestination | src/components/forms/freight/_components/AddFreightForm.tsx:81-83 | exactly the destinations with other ids remain, in order; an absent id changes nothing |
| Freight.AddThenRemoveDestination | src/components/forms/freight/_components/AddFreightForm.tsx:67-83 | removing a destination just added under a fresh id restores the list |
| FreightDetailsView.TextChange | src/components/forms/freight/_components/FreightDetails.tsx:22-27 | a text input's change sets that field only, and keeps the priority |
| FreightDetailsView.PriorityChange | src/components/forms/freight/_components/FreightDetails.tsx:118-122 | the priority changes exactly for one of the three literals, and then only the priority changes |
| FreightDetailsView.PriorityText | src/components/forms/freight/_components/FreightDetails.tsx:42-53 | "high", "medium" and "low" read "Alta", "Media" and "Baja"; anything else is shown as is |
| FreightDetailsView.PriorityTextDistinguishes | src/components/forms/freight/_components/FreightDetails.tsx:42-53 | different priorities read differently, and a label is never mistaken for a literal |
| FreightDetailsView.OrFallback | src/components/forms/freight/_components/FreightDetails.tsx:189-207 | `s \|\| fallback` on strings: the text unless it is empty |
| FreightDetailsView.SummaryOf | src/components/forms/freight/_components/FreightDetails.tsx:189-207 | empty number and client read "Sin asignar", empty weight and value "Sin especificar", others are shown as typed |
| FreightDetailsView.SummaryNeverBlank | src/components/forms/freight/_components/FreightDetails.tsx:189-207 | no summary line is ever blank |
| AddFreightForm.AddFreightFormState.constructor | src/components/forms/freight/_components/AddFreightForm.tsx:47-65 | the form starts with no destinations, empty details of medium priority, and an empty pickup draft |
| AddFreightForm.AddFreightFormState.AddDestination | src/components/forms/freight/_components/AddFreightForm.tsx:67-79 | a complete draft is appended and the draft reset; an incomplete one changes nothing; the details are untouched |
| AddFreightForm.AddFreightFormState.RemoveDestination | src/components/forms/freight/_components/AddFreightForm.tsx:81-83 | the destinations lose that id and nothing else changes |
| AddFreightForm.AddFreightFormState.HandleSave | src/components/forms/freight/_components/AddFreightForm.tsx:85-97 | no destination is refused first; then a missing freight number or client; otherwise exactly the destinations and details are saved |
| AddFreightForm.AddFreightFormState.SetDraftName | src/components/forms/freight/_components/AddFreightForm.tsx:201 | only the draft's name changes |
| AddFreightForm.AddFreightFormState.SetDraftAddress | src/components/forms/freight/_components/AddFreightForm.tsx:206 | only the draft's address changes |
| AddFreightForm.AddFreightFormState.SelectKind | src/components/forms/freight/_components/AddFreightForm.tsx:210-215 | only the draft's kind changes, by the literal guard |
| AddFreightForm.AddFreightFormState.SetDetail | src/components/forms/freight/_components/AddFreightForm.tsx:245-309 | one text detail changes, everything else is kept |
| AddFreightForm.AddFreightFormState.SelectPriority | src/components/forms/freight/_components/AddFreightForm.tsx:288-293 | only the priority changes, by the literal guard |
| RouteBuilder.EnabledButRejected | src/components/forms/freight/_components/RouteBuilder.tsx:41-53 | the add button is enabled for every complete draft, but also for a white-space name, which `addDestination` then ignores |
| RouteBuilder.RouteBuilderState.constructor | src/components/forms/freight/_components/RouteBuilder.tsx:31-39 | the draft starts empty with kind "pickup" |
| RouteBuilder.RouteBuilderState.AddDestination | src/components/forms/freight/_components/RouteBuilder.tsx:41-53 | the list passed up is the appended one exactly when the draft is complete, and then the draft resets; otherwise the draft stays |
| RouteBuilder.RouteBuilderState.RemoveDestination | src/components/forms/freight/_components/RouteBuilder.tsx:55-57 | the list passed up lacks that id, and valid kinds stay valid |
| RouteBuilder.RouteBuilderState.PlaceSelected | src/components/forms/freight/_components/RouteBuilder.tsx:183-189 | a chosen place fills the draft's name and formatted address and keeps its kind |
| RouteBuilder.RouteBuilderState.SelectKind | src/components/forms/freight/_components/RouteBuilder.tsx:195-200 | only the draft's kind changes, by the literal guard |
| TruckList.ListOf | src/components/forms/freight/_components/TruckList.tsx:127 | a truck's freights, or none when it has no entry |
| TruckList.WithFreightAdded | src/components/forms/freight/_components/TruckList.tsx:119-131 | the truck's list gains the new freight with its fresh id at the end; every other truck keeps its list |
| TruckList.Replaced | src/components/forms/freight/_components/TruckList.tsx:136-138 | the map keeps the length and every id; freights with the id become the edited one, the rest are unchanged |
| TruckList.WithFreightEdited | src/components/forms/freight/_components/TruckList.tsx:133-142 | the truck's list has the freight replaced; every other truck keeps its list |
| TruckList.FindFreight | src/components/forms/freight/_components/TruckList.tsx:146 | `find` returns the first freight with the id, and nothing exactly when none has it |
| TruckList.FreightForEditing | src/components/forms/freight/_components/TruckList.tsx:144-167 | nothing exactly when the truck has no freight with that id; otherwise a copy of the destinations and details of the first freight with that id |
| TruckList.AddThenFetch | src/components/forms/freight/_components/TruckList.tsx:119-167 | a freight just added under a fresh id is fetched back for editing unchanged |
| TruckList.EditThenFetch | src/components/forms/freight/_components/TruckList.tsx:133-167 | after an edit of an existing freight, editing it again starts from the edited data |
| TruckList.EditOfMissingId | src/components/forms/freight/_components/TruckList.tsx:136-138 | an edit of an id the truck does not have leaves its list unchanged |
| TruckList.TruckListState.constructor | src/components/forms/freight/_components/TruckList.tsx:115-117 | the lists start as given, with no form open |
| TruckList.TruckListState.StartAdding | src/components/forms/freight/_components/TruckList.tsx:257 | the add form opens for that truck and nothing else changes |
| TruckList.TruckListState.StartEditing | src/components/forms/freight/_components/TruckList.tsx:249 | the edit form opens for that freight and nothing else changes |
| TruckList.TruckListState.CancelAdding | src/components/forms/freight/_components/TruckList.tsx:289 | the add form closes and nothing is saved |
| TruckList.TruckListState.CancelEditing | src/components/forms/freight/_components/TruckList.tsx:299 | the edit form closes and nothing is saved |
| TruckList.TruckListState.HandleAddFreight | src/components/forms/freight/_components/TruckList.tsx:119-131 | the lists become `WithFreightAdded` and the add form closes |
| TruckList.TruckListState.HandleEditFreight | src/components/forms/freight/_components/TruckList.tsx:133-142 | the lists become `WithFreightEdited` and the edit form closes |
| Payroll.Sum | src/app/general/nomina/components/cutoff-ticket-card.tsx:89-92 | the sum of a list's amounts is 0 for none and never negative for non-negative amounts |
| Payroll.SumAppend | src/app/general/nomina/components/cutoff-ticket-card.tsx:89-92 | the sum of two lists joined is the sum of their sums |
| Payroll.SumPositive | src/components/forms/nomina/components/additional-payments.tsx:35 | over positive amounts the sum is positive exactly when the list is not empty |
| CutoffTicketCard.FixedTotal | src/app/general/nomina/components/cutoff-ticket-card.tsx:92 | absent fixed costs count as 0, present ones as their sum |
| CutoffTicketCard.Figures | src/app/general/nomina/components/cutoff-ticket-card.tsx:89-95 | the card's totals: profit is sales minus diesel, tolls and fixed costs, and the employee's share is the percentage of the profit |
| CutoffTicketCard.HiddenFixedCostsAreZero | src/app/general/nomina/components/cutoff-ticket-card.tsx:92-134 | when no fixed-cost section is shown, the fixed costs add nothing to the profit |
| CutoffTicketCard.ShareFollowsProfit | src/app/general/nomina/components/cutoff-ticket-card.tsx:95-110 | the share has the sign of the profit; 100% gives the whole profit, 0% nothing |
| CutoffTicketCard.SaleRaisesProfit | src/app/general/nomina/components/cutoff-ticket-card.tsx:89-94 | one more sale raises the profit by exactly its amount |
| PaysheetDetails.TicketContribution | v0/inputNomina/components/paysheet/clean/paysheet-details.tsx:30-34 | a ticket adds its percentage of sales minus diesel and tolls |
| PaysheetDetails.CutoffTotal | v0/inputNomina/components/paysheet/clean/paysheet-details.tsx:29-35 | the cut-off total of no tickets is 0 |
| PaysheetDetails.TicketVersusCard | v0/inputNomina/components/paysheet/clean/paysheet-details.tsx:29-35 | the paysheet's contribution differs from the card's share exactly when the ticket has fixed costs and a non-zero percentage, by that share of the fixed costs |
| PaysheetDetails.CutoffTotalVersusCards | v0/inputNomina/components/paysheet/clean/paysheet-details.tsx:29-35 | the cut-off total is the cards' shares plus the percentage of every fixed cost |
| PaysheetDetails.NoFixedCostsAgree | v0/inputNomina/components/paysheet/clean/paysheet-details.tsx:29-35 | when no ticket shows fixed costs, the cut-off total equals the sum of the cards' shares |
| PaysheetDetails.GrandTotal | v0/inputNomina/components/paysheet/clean/paysheet-details.tsx:37 | the grand total exceeds the cut-off total by the additional payments less the discounts |
| PaysheetDetails.PaysheetState.constructor | v0/inputNomina/components/paysheet/clean/paysheet-details.tsx:22-26 | no payments, no discounts, not submitting |
| PaysheetDetails.PaysheetState.AdditionalPaymentsChanged | v0/inputNomina/components/paysheet/clean/paysheet-details.tsx:122 | the payments editor's report replaces the payments and their total; discounts stay |
| PaysheetDetails.PaysheetState.DiscountsChanged | v0/inputNomina/components/paysheet/clean/paysheet-details.tsx:125 | the discounts and their total are replaced; payments stay |
| PaysheetDetails.PaysheetState.HandleFinalize | v0/inputNomina/components/paysheet/clean/paysheet-details.tsx:39-74 | the submission carries the employee, the cut-off total, the payments, the discounts, their grand total and the time; a success shows its message, a throw the error toast, and submitting ends false |
| AdditionalPayments.Total | src/components/forms/nomina/components/additional-payments.tsx:35 | no items total 0 |
| AdditionalPayments.Emitted | src/components/forms/nomina/components/additional-payments.tsx:39 | the items passed up keep their order, description and amount, without the id |
| AdditionalPayments.TotalIsSumOfEmitted | src/components/forms/nomina/components/additional-payments.tsx:35-40 | the total reported equals the sum of the items reported |
| AdditionalPayments.Edited | src/components/forms/nomina/components/additional-payments.tsx:83-87 | items with the id take the new description and amount and keep the id; the rest are unchanged |
| AdditionalPayments.Removed | src/components/forms/nomina/components/additional-payments.tsx:101 | exactly the items with other ids remain, in order |
| AdditionalPayments.EditChangesTotal | src/components/forms/nomina/components/additional-payments.tsx:80-92 | editing an item whose id is unique changes the total by the new amount less the old |
| AdditionalPayments.TotalPositive | src/components/forms/nomina/components/additional-payments.tsx:35-56 | with only accepted (positive) amounts, the total is positive exactly when there are items |
| AdditionalPayments.PaymentsEditor.constructor | src/components/forms/nomina/components/additional-payments.tsx:24-30 | no items, nothing open, every text box empty; `Valid` holds after it: the add row and an edited row are never open together and every amount is positive |
| AdditionalPayments.PaymentsEditor.Report | src/components/forms/nomina/components/additional-payments.tsx:37-40 | the effect reports the items without ids and their sum, which is positive exactly when there are items |
| AdditionalPayments.PaymentsEditor.StartAdding | src/components/forms/nomina/components/additional-payments.tsx:42-46 | the add row opens, any edit closes, items and texts stay; `Valid` holds after it: the add row and an edited row are never open together and every amount is positive |
| AdditionalPayments.PaymentsEditor.Type | src/components/forms/nomina/components/additional-payments.tsx:145-246 | typing changes only the box typed in; `Valid` holds after it: the add row and an edited row are never open together and every amount is positive |
| AdditionalPayments.PaymentsEditor.AddItem | src/components/forms/nomina/components/additional-payments.tsx:48-56 | a non-empty description and a positive number append one item with the fresh id and close the row; anything else changes nothing; `Valid` holds after it: the add row and an edited row are never open together and every amount is positive |
| AdditionalPayments.PaymentsEditor.CancelAdd | src/components/forms/nomina/components/additional-payments.tsx:58-62 | the add row closes with its boxes emptied; items stay; `Valid` holds after it: the add row and an edited row are never open together and every amount is positive |
| AdditionalPayments.PaymentsEditor.StartEditing | src/components/forms/nomina/components/additional-payments.tsx:64-78 | the item's description and formatted amount fill the edit boxes, the add row closes; `Valid` holds after it: the add row and an edited row are never open together and every amount is positive |
| AdditionalPayments.PaymentsEditor.SaveEdit | src/components/forms/nomina/components/additional-payments.tsx:80-92 | a valid edit of a truthy id replaces the item and closes the edit; otherwise (an id of 0 included) nothing changes; `Valid` holds after it: the add row and an edited row are never open together and every amount is positive |
| AdditionalPayments.PaymentsEditor.CancelEdit | src/components/forms/nomina/components/additional-payments.tsx:94-98 | the edit closes with its boxes emptied; items stay; `Valid` holds after it: the add row and an edited row are never open together and every amount is positive |
| AdditionalPayments.PaymentsEditor.RemoveItem | src/components/forms/nomina/components/additional-payments.tsx:100-105 | the items lose that id; an edit of that item closes, any other stays open; `Valid` holds after it: the add row and an edited row are never open together and every amount is positive |
| TaskSidebar.Pending | src/app/app/_components/TaskSidebar.tsx:68 | the pending list holds exactly the uncompleted tasks, in order, and is empty while loading |
| TaskSidebar.Completed | src/app/app/_components/TaskSidebar.tsx:69 | the completed list holds exactly the completed tasks, in order, and is empty while loading |
| TaskSidebar.FilterSplits | src/app/app/_components/TaskSidebar.tsx:68-69 | the two filtered lists together are as long as the list of tasks |
| TaskSidebar.Partition | src/app/app/_components/TaskSidebar.tsx:68-69 | every task is in exactly one of the two lists |
| TaskSidebar.ShownCompleted | src/app/app/_components/TaskSidebar.tsx:132 | the first five completed tasks, or all of them when there are five or fewer |
| TaskSidebar.EmptyStateIff | src/app/app/_components/TaskSidebar.tsx:160 | the empty state shows exactly when there are no tasks or they are still loading |
| TaskSidebar.PermanentTasks | src/app/app/_components/TaskSidebar.tsx:26-35 | one uncompleted freight task with id "permanent-freight" is always offered |
| TaskSidebar.TaskTitle | src/app/app/_components/TaskSidebar.tsx:48-57 | the two known types have their Spanish titles; any other type is its own title |
| TaskSidebar.PermanentTaskTitle | src/app/app/_components/TaskSidebar.tsx:26-57 | the permanent task reads "Gestión de Fletes" |
| ReportUploadForm.AcceptanceExamples | src/app/app/_components/forms/SubirReporteMovimientosForm.tsx:37-43 | a name ending in `.xlsx` is enough, a CSV type is enough, a PDF is refused |
| ReportUploadForm.ReportUploadState.constructor | src/app/app/_components/forms/SubirReporteMovimientosForm.tsx:27-29 | no file, not uploading, no comments |
| ReportUploadForm.ReportUploadState.HandleFileSelect | src/app/app/_components/forms/SubirReporteMovimientosForm.tsx:33-49 | the first file is kept exactly when it is accepted; an alert shows exactly for a refused file; no file changes nothing |
| ReportUploadForm.ReportUploadState.SetComments | src/app/app/_components/forms/SubirReporteMovimientosForm.tsx:203 | only the comments change |
| ReportUploadForm.ReportUploadState.HandleSubmit | src/app/app/_components/forms/SubirReporteMovimientosForm.tsx:51-82 | no file is refused untouched; otherwise the stored task is toggled once and the form cleared, or on a throw the tasks and the form stay; uploading ends false |
| PaysheetPage.FilteredEmployees | v0/inputNomina/app/paysheet/page.tsx:12-14 | exactly the employees whose lower-cased name contains the lower-cased query, in order |
| PaysheetPage.EmptyQueryKeepsAll | v0/inputNomina/app/paysheet/page.tsx:9-14 | an empty query lists every employee |
| PaysheetPage.PaysheetPageState.constructor | v0/inputNomina/app/paysheet/page.tsx:9-10 | an empty search, and the first employee open when there is one |
| PaysheetPage.PaysheetPageState.Shown | v0/inputNomina/app/paysheet/page.tsx:12-19 | the list shown holds only employees of the page |
| PaysheetPage.PaysheetPageState.SetSearch | v0/inputNomina/app/paysheet/page.tsx:23 | the search changes and the open paysheet does not |
| PaysheetPage.PaysheetPageState.SelectEmployee | v0/inputNomina/app/paysheet/page.tsx:21 | the chosen employee opens and the search stays |

## Left out

- Network and foreign services: the Camunda REST calls, the upload `fetch`, the Google Places and Maps services, Clerk's `auth()` and the Convex database engine are not modelled; their answers are parameters (`GoogleAnswer`, `FinalizeAnswer`, `upload`, the role and user id) and the tables are in memory.
- The `@bpmn-io/form-js` `Form` object of `FormViewer.tsx` is a third-party renderer; only the conversions around it and the order of upload and completion are modelled.
- `fetchFormSchema` and the loading flag while a form or a details request is pending are not modelled; the schema is a parameter.
- JavaScript `eval`, `JSON.parse`, `JSON.stringify` of non-strings, `new Date(...)`, `toISOString`, `Date.now()` and `toString` on numbers are parameters (`eval` in the computed field and `evalJs` in the option resolution, `parse`, `format`, `toIso`, `now`, `freshId`), so their own behaviour is not modelled.
- Floating point: numbers inside JavaScript values are integers (`JsValues.Num`), and so are the number fields of the records (`kms`, `priority`, `createdAt`, `updatedAt`); payroll amounts are exact reals, and `NaN`, rounding and `parseFloat` itself (a parameter) are not modelled.
- Locale behaviour: `toLowerCase`/`toUpperCase` map ASCII letters only, and `Intl.NumberFormat`, `toLocaleDateString` and `formatFileSize` are not modelled.
- Whole-word substitution treats each key literally: regular-expression metacharacters in a key and `$` patterns in the replacement text are not modelled.
- CamundaExpression.EvaluationNullIff: what `eval` returns is any `JsValues` value or a throw; a regular expression is therefore some object value, and its identity is modelled only by the fact that `eval` builds a new one on every run, so it is never strictly equal to the stored value.
- Object key order: `JsValues` objects keep every key in insertion order; JavaScript's rule that integer-like keys come first, in ascending order, is not reproduced.
- Option props that are not strings or arrays of `{label, value}` (numbers, booleans) are not modelled.
- React scheduling: effects, re-renders, the debounce delay, the ordering of asynchronous calls, focus, blur, alerts and toasts are replaced by sequential methods and by returned outcomes.
- CamundaFilepicker's `multiple` prop is not modelled: only the first file is taken.
- The stored-place query of the autocomplete (limit 5 in `places-autocomplete.tsx:69`) is not modelled; its results are a parameter.
- The mock freights of `TruckList.tsx:23-112` are not reproduced: the initial lists are a constructor parameter.
- The `Discounts` component of the paysheet is not part of this model; its report is the input of `PaysheetDetails.PaysheetState.DiscountsChanged`.
- Presentation: class names, colours, icons, dates as shown and the collapsible sections are not modelled.
- Group path nesting and dotted-path flattening do not exist in this code and are not modelled.
- Generated, schema-only and stub files are used only as the source of the record datatypes.
- db.delete on a missing id is modelled as doing nothing; the engine's error for it is not modelled. The updates check for the document first and return the NoSuchDocument error instead.

## Notes on the code

- `tasks.ts` `addTask` reads `args.type`, but its argument validator has no `type` field, so every task it inserts has type `"any"`.
- The payload of `DynamicCamundaForm.tsx` looks values up by component `id`, while the renderers write under `camundaKey || id`; a value written only under a different key is never submitted (`DynamicForm.KeyedWriteIsNotSubmitted`).
- `TruckList.tsx:296` passes `initialData` to `AddFreightForm`, which declares no such prop, so the edit form opens empty; accordingly `AddFreightForm.AddFreightFormState.constructor` takes no initial data.
- `handleSaveEdit` in `additional-payments.tsx` tests `editingId &&`, so an item whose id is 0 can never be saved.
- The paysheet's `cutoffTotal` leaves fixed costs out, while the card's employee share includes them (`PaysheetDetails.TicketVersusCard`).
- RouteBuilder's add button tests the untrimmed fields, so white space enables it even though `addDestination` then does nothing (`RouteBuilder.EnabledButRejected`).
- New autocomplete predictions do not reset the selected index, and the `focus()` at the end of `clearInput` can reopen the (empty) list.
- The middleware's `/app(.*)` and `/operador(.*)` matchers are prefix matches, so `/application` counts as an `/app` path.
- The arithmetic guard of `CamundaExpression.tsx:46` admits `/`, so "=/1/" reaches `eval` and yields a regular expression. A new object on every run is never `===` to the stored one, so the effect writes it again on every render (`CamundaExpression.RegExpResultNeverSettles`).
- The sidebar treats a task's type as a plain string; any unknown type is its own title.
