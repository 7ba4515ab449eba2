/**
 * The toolkit's registry of tools: one entry per backend operation, with the
 * method it dispatches to, a display name, its prompt and argument schema, and
 * the permissions it needs.
 */
module Tools {
  import opened Wrappers
  import opened Configuration

  /**
   * One registry entry. `description` and `argsSchema` hold only the names of
   * the prompt constant and the argument-schema class, as placeholders.
   */
  datatype Tool = Tool(
    methodName: string,
    name: string,
    description: string,
    argsSchema: string,
    actions: ToolActions)

  /** The registry, in its declared order. */
  const Registry: seq<Tool> := [
    Tool("create_appointment", "Create Appointment", "CREATE_APPOINTMENT_PROMPT", "CreateAppointment",
         map["appointments" := map["create" := true]]),
    Tool("list_appointments", "List Appointments", "LIST_APPOINTMENTS_PROMPT", "ListAppointments",
         map["appointments" := map["read" := true]]),
    Tool("update_appointment", "Update Appointment", "UPDATE_APPOINTMENT_PROMPT", "UpdateAppointment",
         map["appointments" := map["update" := true]]),
    Tool("list_services", "List Services", "LIST_SERVICES_PROMPT", "ListServices",
         map["services" := map["read" := true]]),
    Tool("get_staff_info", "Get Staff Info", "GET_STAFF_INFO_PROMPT", "GetStaffInfo",
         map["staff" := map["read" := true]]),
    Tool("get_service_info", "Get Service Info", "GET_SERVICE_INFO_PROMPT", "GetServiceInfo",
         map["services" := map["read" := true]]),
    Tool("get_available_dates", "Get Available Dates", "GET_AVAILABLE_DATES_PROMPT", "GetAvailableDates",
         map["availability" := map["read" := true]]),
    Tool("get_available_slots", "Get Available Slots", "GET_AVAILABLE_SLOTS_PROMPT", "GetAvailableSlots",
         map["availability" := map["read" := true]]),
    Tool("generate_booking_link", "Generate Booking Link", "GENERATE_BOOKING_LINK_PROMPT", "GenerateBookingLink",
         map["booking" := map["create" := true]])
  ]

  /** The methods of the three appointment tools. */
  const AppointmentMethods: set<string> := {"create_appointment", "list_appointments", "update_appointment"}

  /** The configuration of the toolkit's usage example: appointments may be created, updated and read. */
  const ExampleConfiguration: Configuration :=
    Configuration(
      Some(map["appointments" := map["create" := Some(true), "update" := Some(true), "read" := Some(true)]]),
      None)

  /** Whether an entry asks for exactly one permission key on exactly one resource, declared true. */
  predicate SingleGate(tool: Tool)
  {
    exists r, p :: r in tool.actions && p in tool.actions[r] && tool.actions == map[r := map[p := true]]
  }

  /** The registry has nine entries and no method appears twice. */
  lemma RegistryMethodsDistinct()
    ensures |Registry| == 9
    ensures forall i, j :: 0 <= i < j < |Registry| ==> Registry[i].methodName != Registry[j].methodName
  {
  }

  /** Every entry is guarded by a single resource and a single permission key. */
  lemma RegistrySingleGates()
    ensures forall i :: 0 <= i < |Registry| ==> SingleGate(Registry[i])
  {
    forall i | 0 <= i < |Registry| ensures SingleGate(Registry[i]) {
      var (r, p) := GateOf(i);
      assert r in Registry[i].actions && p in Registry[i].actions[r];
    }
  }

  /**
   * The resource and permission key guarding entry `i`. The two lists restate
   * the gates of `Registry` by position; the ensures clause, checked against
   * `Registry` itself, is what keeps them in step with it.
   */
  function GateOf(i: nat): (gate: (string, string))
    requires i < |Registry|
    ensures Registry[i].actions == map[gate.0 := map[gate.1 := true]]
  {
    var resources := ["appointments", "appointments", "appointments", "services", "staff",
                      "services", "availability", "availability", "booking"];
    var permissions := ["create", "read", "update", "read", "read", "read", "read", "read", "create"];
    (resources[i], permissions[i])
  }

  /** The appointment entries need appointments.create, .read and .update, in that order. */
  lemma AppointmentGates()
    ensures Registry[0].methodName == "create_appointment" && GateOf(0) == ("appointments", "create")
    ensures Registry[1].methodName == "list_appointments" && GateOf(1) == ("appointments", "read")
    ensures Registry[2].methodName == "update_appointment" && GateOf(2) == ("appointments", "update")
  {
  }

  /** Under any configuration, an entry is allowed exactly when its one gate is granted. */
  lemma AllowedIffGateGranted(i: nat, config: Configuration)
    requires i < |Registry|
    ensures Allowed(Registry[i].actions, config) <==> Granted(config, GateOf(i).0, GateOf(i).1)
  {
    SingleRequirement(config, GateOf(i).0, GateOf(i).1, true);
  }

  /** The example configuration admits the appointment tools and nothing else. */
  lemma ExampleAdmitsExactlyAppointmentTools()
    ensures forall i :: 0 <= i < |Registry| ==>
      (Allowed(Registry[i].actions, ExampleConfiguration) <==> Registry[i].methodName in AppointmentMethods)
  {
    forall i | 0 <= i < |Registry|
      ensures Allowed(Registry[i].actions, ExampleConfiguration) <==> Registry[i].methodName in AppointmentMethods
    {
      AllowedIffGateGranted(i, ExampleConfiguration);
    }
  }

  /** A configuration that keeps to the declared shapes can only ever admit appointment tools. */
  lemma WellShapedAdmitsOnlyAppointmentTools(config: Configuration, i: nat)
    requires WellShaped(config) && i < |Registry|
    requires Allowed(Registry[i].actions, config)
    ensures Registry[i].methodName in AppointmentMethods
  {
    AllowedIffGateGranted(i, config);
    assert GateOf(i).0 in DeclaredResources;
  }

  /** `list_services` and `get_service_info` share the gate services.read. */
  lemma ServiceToolsShareGate(config: Configuration)
    ensures Registry[3].methodName == "list_services" && Registry[5].methodName == "get_service_info"
    ensures GateOf(3) == GateOf(5) == ("services", "read")
    ensures Allowed(Registry[3].actions, config) == Allowed(Registry[5].actions, config)
  {
    AllowedIffGateGranted(3, config);
    AllowedIffGateGranted(5, config);
  }

  /** `get_available_dates` and `get_available_slots` share the gate availability.read. */
  lemma AvailabilityToolsShareGate(config: Configuration)
    ensures Registry[6].methodName == "get_available_dates" && Registry[7].methodName == "get_available_slots"
    ensures GateOf(6) == GateOf(7) == ("availability", "read")
    ensures Allowed(Registry[6].actions, config) == Allowed(Registry[7].actions, config)
  {
    AllowedIffGateGranted(6, config);
    AllowedIffGateGranted(7, config);
  }
}
