# Appointy agent toolkit: permission gate, tool registry and request building

This project is a Dafny model of the parts of the Appointy agent toolkit that
make decisions or build data:

- **The permission gate** (`configuration.py`). A configuration grants
  permissions per resource (`appointments` → `create`/`update`/`read` → optional
  flag). Each tool declares the permissions it needs. `is_tool_allowed` admits a
  tool exactly when every resource the tool names is present in the
  configuration and every permission key it lists there is granted. A missing
  key, a `None` or a `false` all count as not granted. Module `Configuration`
  holds the shapes as Dafny types, the gate as an imperative method with nested
  loops, a quantified predicate `Allowed` that the method is proved to compute,
  and lemmas about that predicate.
- **The tool registry** (`tools.py`). The nine tools as a constant sequence
  `Tools.Registry`, with lemmas about it on its own and together with the gate.
  The prompt text and argument schemas are placeholders that hold only the
  names of the constants the file refers to.
- **Request construction** (`functions.py`). The URL, `Authorization` header
  and JSON body that `create_appointment`, `list_appointments` and
  `update_appointment` hand to the HTTP library. These are pure functions from
  the arguments to a `Request` value. The partial-update body is the
  `None`-dropping dict comprehension. JSON objects are ordered field lists,
  since Python dicts keep insertion order. The five body keys form an
  enumeration, `FieldKey`, and `KeyName` gives the JSON name of each.

Files: `wrappers.dfy` (Option), `configuration.dfy`, `tools.dfy`,
`functions.dfy`.

## Definitions

These definitions carry no contract of their own. The lemmas and methods in
the table below state what they mean.

- `Configuration.ActionsOf`: `configuration.get("actions", {})` (configuration.py:31), an absent `actions` key read as empty.
- `Configuration.Truthy`: the truthiness test of `.get(permission, False)` (configuration.py:34-38); only a present `True` passes.
- `Configuration.Allowed`: the quantified meaning of `is_tool_allowed` (configuration.py:29-40) that `IsToolAllowed` is proved to compute.
- `Tools.Registry`: the `tools` list (tools.py:27-127).
- `Tools.ExampleConfiguration`: the configuration literal of python/examples/crewai/main.py:11-19.
- `Functions.Render`: how the f-strings at functions.py:46-47, 62-63 and 102-103 render an optional field.

## Model

| member | source | states |
|---|---|---|
| `Configuration.IsToolAllowed` | python/appointy_agent_toolkit/configuration.py:29-40 | The loop's answer is true exactly when every resource the tool names is present in the configuration's actions and every permission key listed for it is granted (present and true). |
| `Configuration.AllowedIffPairsGranted` | python/appointy_agent_toolkit/configuration.py:29-40 | An independent set-based reference. The tool is allowed iff its resources are a subset of the configuration's resources and its required (resource, key) pairs are a subset of the granted pairs. |
| `Configuration.MissingResourceRejects` | python/appointy_agent_toolkit/configuration.py:30-32 | A resource the configuration lacks rejects the tool. |
| `Configuration.UngrantedPermissionRejects` | python/appointy_agent_toolkit/configuration.py:33-39 | A listed permission key that is missing from the resource's grants, or present but `None`/false, rejects the tool. |
| `Configuration.EmptyToolAllowed` | python/appointy_agent_toolkit/configuration.py:30-40 | A tool with empty actions is allowed under every configuration, including one without an `actions` key. |
| `Configuration.NoActionsRejects` | python/appointy_agent_toolkit/configuration.py:31 | A configuration without an `actions` key rejects every tool that names at least one resource. |
| `Configuration.EmptyPermissionSetNeedsPresence` | python/appointy_agent_toolkit/configuration.py:31-34 | In any tool, a resource listed with no permission keys contributes only its presence: the tool is allowed iff that resource is present, whatever its grants, and the tool without it is allowed. |
| `Configuration.SingleRequirement` | python/appointy_agent_toolkit/configuration.py:33-39 | A tool needing one key on one resource is allowed iff that key is granted, whatever flag the tool declares beside it. |
| `Configuration.OnlyKeysMatter` | python/appointy_agent_toolkit/configuration.py:33-34 | Two tools with the same resources and the same permission keys get the same verdict, whatever their declared flags. |
| `Configuration.DeclaredFalseStillRequired` | python/appointy_agent_toolkit/configuration.py:33-37 | A tool declaring `{"appointments": {"create": False}}` is allowed iff `appointments.create` is granted. |
| `Configuration.AllowedMonotone` | python/appointy_agent_toolkit/configuration.py:29-40 | If a configuration has every resource and grant of another, every tool the narrower one allows is allowed by the wider one. |
| `Configuration.GrantPermissionExtends` | python/appointy_agent_toolkit/configuration.py:33-37 | Setting one permission to true (adding its resource if needed) only widens a configuration, so by monotonicity no allowed tool becomes rejected. |
| `Configuration.AddResourceExtends` | python/appointy_agent_toolkit/configuration.py:31-32 | Adding a new resource, with any grants, only widens a configuration. |
| `Configuration.FewerRequirementsStillAllowed` | python/appointy_agent_toolkit/configuration.py:29-40 | A tool whose requirements are a subset of an allowed tool's is allowed too. |
| `Configuration.WellShapedRejectsUndeclaredResource` | python/appointy_agent_toolkit/configuration.py:5-17 | A configuration limited to the declared `Actions` shape (only `appointments`) rejects any tool that names another resource. |
| `Configuration.WellShapedRejectsUndeclaredPermission` | python/appointy_agent_toolkit/configuration.py:10-13 | A configuration limited to the declared `Permission` keys (`create`, `update`, `read`) rejects any tool that asks for another key. |
| `Tools.RegistryMethodsDistinct` | python/appointy_agent_toolkit/tools.py:27-127 | The registry has exactly nine entries and their method names are pairwise distinct. |
| `Tools.GateOf` | python/appointy_agent_toolkit/tools.py:27-127 | Gives, for each entry, the one resource and the one key whose map, declared true, is exactly that entry's actions. |
| `Tools.RegistrySingleGates` | python/appointy_agent_toolkit/tools.py:27-127 | Every entry's actions name exactly one resource with exactly one permission key, set to true. |
| `Tools.AppointmentGates` | python/appointy_agent_toolkit/tools.py:28-60 | The first three entries are the appointment tools and need appointments.create, appointments.read and appointments.update respectively. |
| `Tools.AllowedIffGateGranted` | python/appointy_agent_toolkit/tools.py:27-127 | Under any configuration, an entry is allowed iff its single gate is granted. |
| `Tools.ExampleAdmitsExactlyAppointmentTools` | python/examples/crewai/main.py:11-19 | Under the example configuration granting appointments create/update/read, the gate admits exactly `create_appointment`, `list_appointments` and `update_appointment` and rejects the other six. |
| `Tools.WellShapedAdmitsOnlyAppointmentTools` | python/appointy_agent_toolkit/tools.py:27-127 | A configuration that keeps to the declared shapes can admit no registry entry except the three appointment tools. |
| `Tools.ServiceToolsShareGate` | python/appointy_agent_toolkit/tools.py:61-93 | `list_services` and `get_service_info` share the single gate services.read, so every configuration gives them the same verdict. |
| `Tools.AvailabilityToolsShareGate` | python/appointy_agent_toolkit/tools.py:94-115 | `get_available_dates` and `get_available_slots` share the single gate availability.read, so every configuration gives them the same verdict. |
| `Functions.CreateBody` | python/appointy_agent_toolkit/functions.py:37-43 | The create body has exactly the five keys title, start_time, end_time, customer_name and customer_email, in that order, none repeated. |
| `Functions.CreateBodyBindsArguments` | python/appointy_agent_toolkit/functions.py:37-43 | Looking up each of the five keys in the create body gives the matching argument. |
| `Functions.UpdateFields` | python/appointy_agent_toolkit/functions.py:92-98 | The update dict literal holds each of the five keys once, bound to its optional argument (`None` included). |
| `Functions.UpdateBody` | python/appointy_agent_toolkit/functions.py:92-99 | Looking up each of the five keys in the update body gives exactly the optional argument: the key is absent iff the argument is `None`. No key repeats, and the key type admits no other key. |
| `Functions.DropNone` | python/appointy_agent_toolkit/functions.py:99 | The filtered dict is never longer than the input. Which pairs it keeps is stated by `DropNoneMember`. |
| `Functions.DropNoneMember` | python/appointy_agent_toolkit/functions.py:99 | A (key, value) pair is in the filtered dict iff the input held (key, present value): every kept value is unchanged and nothing is added. |
| `Functions.DropNoneLookup` | python/appointy_agent_toolkit/functions.py:99 | For inputs with distinct keys, looking a key up after filtering gives the input's value if it was present and nothing otherwise. |
| `Functions.DropNoneDistinct` | python/appointy_agent_toolkit/functions.py:99 | Filtering keeps the keys distinct. |
| `Functions.DropNoneAllPresent` | python/appointy_agent_toolkit/functions.py:99 | When every value is present, the filter keeps every field in order. |
| `Functions.DropNoneAllAbsent` | python/appointy_agent_toolkit/functions.py:99 | When every value is `None`, the filter keeps nothing. |
| `Functions.AppointmentsUrl` | python/appointy_agent_toolkit/functions.py:46 | The collection URL splits into the rendered base URL and the suffix `/appointments`. Create and list both use it. |
| `Functions.AuthHeaders` | python/appointy_agent_toolkit/functions.py:47 | Every call passes exactly one header, `Authorization`, to the HTTP library, and its bearer credential is the rendered API key. Headers the library adds itself, such as `Content-Type` for a JSON body, are not modelled. |
| `Functions.KeyNameInjective` | python/appointy_agent_toolkit/functions.py:37-43 | Distinct body keys have distinct JSON names, so keys distinct in the model are distinct in the JSON sent. |
| `Functions.NoneFieldsRenderAsText` | python/appointy_agent_toolkit/functions.py:46-47 | A base URL set to `None` yields the URL `None/appointments`, and an API key set to `None` yields the credential `None`, as the f-strings render `None`. |
| `Functions.AppointmentUrl` | python/appointy_agent_toolkit/functions.py:102 | The update URL is the collection URL followed by `/` and the appointment id, and the id can be read back from the URL. |
| `Functions.AppointmentUrlInjective` | python/appointy_agent_toolkit/functions.py:102 | Different appointment ids give different update URLs. |
| `Functions.AuthHeaderCarriesKey` | python/appointy_agent_toolkit/functions.py:47 | The `Authorization` header parses as a bearer credential, and that credential is the context's API key (a key set to `None` renders as the text `None`; a context without the attribute raises `AttributeError`, which is not modelled). |
| `Functions.CreateAppointment` | python/appointy_agent_toolkit/functions.py:37-48 | Create is a POST to `{api_base_url}/appointments` with the bearer header. The body it sends is `CreateBody` of its five arguments, so the key-to-argument bindings of `CreateBodyBindsArguments` hold of the request. |
| `Functions.ListAppointments` | python/appointy_agent_toolkit/functions.py:61-63 | List is a GET with no body. Its `Authorization` header parses back to the context's API key. Appending `/` and an id to its URL gives that appointment's update URL. |
| `Functions.UpdateAppointment` | python/appointy_agent_toolkit/functions.py:92-104 | Update is a PUT to `{api_base_url}/appointments/{appointment_id}` with the bearer header. The body it sends is `UpdateBody` of its optional arguments, so each field is present iff its argument is given. `appointment_id` is never a body key because body keys are `FieldKey`s and `KeyName` names none of them `appointment_id`. |
| `Functions.CreateAndListShareTarget` | python/appointy_agent_toolkit/functions.py:46-63 | Create and list address the same URL with the same headers. |
| `Functions.EmptyUpdateSendsEmptyObject` | python/appointy_agent_toolkit/functions.py:99-104 | An update with every optional field `None` sends the empty object. |
| `Functions.DropNoneAllGiven` | python/appointy_agent_toolkit/functions.py:99 | Filtering the five-field literal with every value given keeps all five fields, in order, with the values unwrapped. |
| `Functions.FullUpdateMatchesCreate` | python/appointy_agent_toolkit/functions.py:92-99 | An update that gives all five fields sends exactly the body that a create with the same values sends. |
| `Functions.UpdateBodyOnlyGivenFields` | python/appointy_agent_toolkit/functions.py:92-99 | Every field of an update body is a given argument under its own key, unchanged, and every given argument is sent. |

## Left out

- The HTTP calls (`requests.post/get/put`), `raise_for_status` and the parsing of the response into `Appointment` values (functions.py:45-51, 61-66, 101-107) are network I/O. The model stops at the `Request` value handed to the library.
- JSON serialisation of the body is not modelled. The body is the ordered list of fields that the library would serialise.
- `AppointyAPI.run` (api.py) only forwards a method name to these functions. Its single decision, rejecting an unknown name with `ValueError`, is not modelled.
- tool.py (a crewai `BaseTool` wrapper), prompts.py and schema.py (constant text and pydantic schemas) have no behaviour to model. The registry keeps only the names of the prompt constants and schema classes it refers to. Six of the nine names that tools.py imports (python/appointy_agent_toolkit/tools.py:7-12, 19-24) are defined in neither prompts.py nor schema.py, so importing the module as it stands raises `ImportError`. The registry is modelled as the literal data of tools.py:27-127 regardless.
- The usage scripts under python/examples are agent programs. Only the configuration literal of the crewai script is used, as `Tools.ExampleConfiguration`.
- The registry lists services, staff, availability and booking-link tools (python/appointy_agent_toolkit/tools.py:61-126). The toolkit has no implementation for them, so they are not modelled beyond their registry entries.
- Configuration.IsToolAllowed: a configuration whose `actions` is present but `None` makes Python raise `TypeError` (configuration.py:31) once the tool names a resource. A resource entry that is `None` makes it raise `AttributeError` (configuration.py:36-37) once the tool lists a key on that resource. The model cannot represent either value: `actions == None` means the key is absent, and the gate then rejects every tool that names a resource (`NoActionsRejects`) and accepts the empty tool (`EmptyToolAllowed`).
- Configuration.IsToolAllowed: a tool without an `actions` key makes Python fail on `None.items()`. The model's tools always carry actions, as every registry entry does.
- Configuration.IsToolAllowed: Python visits resources and keys in insertion order and stops at the first failure. The model visits them in an arbitrary order. That order is not observable, because the gate has no side effects and its answer does not depend on it.
- Configuration.Truthy: permission flags are typed `Optional[bool]`, so only `True` passes Python's truthiness test. Non-boolean flag values are outside the declared type and not modelled.
- Functions.CreateAppointment, Functions.ListAppointments, Functions.UpdateAppointment: the source reads `context.api_base_url` and `context.api_key` by attribute access (functions.py:45-46, 62-63, 102-103), although `Context` is declared as a `TypedDict`. The model's `None` stands for a field that is present and set to `None`, which an f-string renders as the text `None`. A context without the attribute raises `AttributeError`, which is not modelled. A plain dict of the declared type is such a context, and `AppointyAPI.__init__` builds one (`Context()`, api.py:26) when no context is given. So every call made through `run` without a caller-supplied attribute object raises `AttributeError` before any request is built.
