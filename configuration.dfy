/**
 * The permission layer of the toolkit: the shapes of a configuration
 * (`Permission`, `Actions`, `Context`, `Configuration`) and the gate
 * `is_tool_allowed`, which decides whether a tool's declared requirements are
 * all granted by a configuration.
 */
module Configuration {
  import opened Wrappers

  /** A resource's grants: permission key to an optional flag (`Permission`). */
  type Permission = map<string, Option<bool>>

  /** Resource name to its grants (`Actions`). */
  type Actions = map<string, Permission>

  /** Where and how to reach the backend (`Context`); both fields may be missing. */
  datatype Context = Context(apiBaseUrl: Option<string>, apiKey: Option<string>)

  /**
   * A configuration (`Configuration`). `actions == None` is a configuration
   * without an `actions` key.
   */
  datatype Configuration = Configuration(actions: Option<Actions>, context: Option<Context>)

  /**
   * What a tool declares it needs: resource name to the permission keys it
   * uses, with the flags the tool writes beside them (only the keys matter).
   */
  type ToolActions = map<string, map<string, bool>>

  /** The resources named by the `Object` literal type and the `Actions` shape. */
  const DeclaredResources: set<string> := {"appointments"}

  /** The keys of the `Permission` shape. */
  const DeclaredPermissions: set<string> := {"create", "update", "read"}

  /** A configuration that keeps to the declared shapes: only known resources and keys. */
  predicate WellShaped(config: Configuration)
  {
    config.actions.Some? ==>
      forall r :: r in config.actions.value ==>
        r in DeclaredResources && config.actions.value[r].Keys <= DeclaredPermissions
  }

  /** `configuration.get("actions", {})`: the actions, empty when the key is missing. */
  function ActionsOf(config: Configuration): Actions
  {
    config.actions.GetOr(map[])
  }

  /** A flag counts as granted only when it is present and true (Python truthiness). */
  predicate Truthy(flag: Option<bool>)
  {
    flag == Some(true)
  }

  /** Whether `resource` appears among the configuration's actions. */
  predicate HasResource(config: Configuration, resource: string)
  {
    resource in ActionsOf(config)
  }

  /** Whether `permission` on `resource` is granted (a missing key reads as false). */
  predicate Granted(config: Configuration, resource: string, permission: string)
  {
    && HasResource(config, resource)
    && permission in ActionsOf(config)[resource]
    && Truthy(ActionsOf(config)[resource][permission])
  }

  /**
   * The meaning of the gate: every resource the tool names is present in the
   * configuration, and every permission key it lists there is granted.
   */
  predicate Allowed(tool: ToolActions, config: Configuration)
  {
    forall resource :: resource in tool ==>
      && HasResource(config, resource)
      && forall permission :: permission in tool[resource] ==> Granted(config, resource, permission)
  }

  /**
   * `is_tool_allowed`: looks at each resource of the tool in turn, rejects it
   * when the configuration lacks the resource, then looks at each permission
   * key and rejects it when that key is not granted; accepts when nothing was
   * rejected. Python visits the keys in insertion order; the model visits them
   * in an arbitrary order, which cannot change the answer.
   */
  method IsToolAllowed(tool: ToolActions, config: Configuration) returns (allowed: bool)
    ensures allowed == Allowed(tool, config)
  {
    var resources := tool.Keys;
    while resources != {}
      invariant resources <= tool.Keys
      invariant forall r :: r in tool && r !in resources ==>
        HasResource(config, r) && forall p :: p in tool[r] ==> Granted(config, r, p)
      decreases resources
    {
      var resource :| resource in resources;
      var actions := ActionsOf(config);
      if resource !in actions {
        return false;
      }
      var permissions := tool[resource].Keys;
      while permissions != {}
        invariant permissions <= tool[resource].Keys
        invariant forall p :: p in tool[resource] && p !in permissions ==> Granted(config, resource, p)
        decreases permissions
      {
        var permission :| permission in permissions;
        var grants := if resource in actions then actions[resource] else map[];
        var flag := if permission in grants then grants[permission] else Some(false);
        if !Truthy(flag) {
          return false;
        }
        permissions := permissions - {permission};
      }
      resources := resources - {resource};
    }
    return true;
  }

  // ---------------------------------------------------------------------------
  // A second, set-based statement of the gate.

  /** Every (resource, permission key) pair a tool lists. */
  function RequiredPairs(tool: ToolActions): set<(string, string)>
  {
    set r, p | r in tool && p in tool[r] :: (r, p)
  }

  /** Every (resource, permission key) pair a configuration grants. */
  function GrantedPairs(config: Configuration): set<(string, string)>
  {
    var actions := ActionsOf(config);
    set r, p | r in actions && p in actions[r] && Truthy(actions[r][p]) :: (r, p)
  }

  /**
   * The gate accepts exactly when the tool's resources are all present and
   * its required pairs are all granted.
   */
  lemma AllowedIffPairsGranted(tool: ToolActions, config: Configuration)
    ensures Allowed(tool, config) <==>
      tool.Keys <= ActionsOf(config).Keys && RequiredPairs(tool) <= GrantedPairs(config)
  {
    var required, granted := RequiredPairs(tool), GrantedPairs(config);
    if Allowed(tool, config) {
      forall pair | pair in required ensures pair in granted {
        assert Granted(config, pair.0, pair.1);
      }
    }
    if tool.Keys <= ActionsOf(config).Keys && required <= granted {
      forall r | r in tool
        ensures HasResource(config, r) && forall p :: p in tool[r] ==> Granted(config, r, p)
      {
        forall p | p in tool[r] ensures Granted(config, r, p) {
          assert (r, p) in required;
        }
      }
    }
  }

  // ---------------------------------------------------------------------------
  // Rejection and acceptance cases.

  /** A resource the configuration lacks rejects the tool. */
  lemma MissingResourceRejects(tool: ToolActions, config: Configuration, resource: string)
    requires resource in tool && !HasResource(config, resource)
    ensures !Allowed(tool, config)
  {
  }

  /** A listed permission that is missing, `None` or `false` rejects the tool. */
  lemma UngrantedPermissionRejects(tool: ToolActions, config: Configuration, resource: string, permission: string)
    requires resource in tool && permission in tool[resource]
    requires !HasResource(config, resource) || permission !in ActionsOf(config)[resource]
      || !Truthy(ActionsOf(config)[resource][permission])
    ensures !Allowed(tool, config)
  {
  }

  /** A tool that names no resource is allowed everywhere, even without an `actions` key. */
  lemma EmptyToolAllowed(config: Configuration)
    ensures Allowed(map[], config)
  {
  }

  /** A configuration without an `actions` key rejects every tool that names a resource. */
  lemma NoActionsRejects(tool: ToolActions, config: Configuration)
    requires config.actions.None? && tool != map[]
    ensures !Allowed(tool, config)
  {
    var r :| r in tool;
    MissingResourceRejects(tool, config, r);
  }

  /**
   * A resource listed with no permission keys only has to be present: in any
   * tool, its part of the verdict is the presence of the resource alone.
   */
  lemma EmptyPermissionSetNeedsPresence(tool: ToolActions, config: Configuration, resource: string)
    requires resource in tool && tool[resource] == map[]
    ensures Allowed(tool, config) <==> HasResource(config, resource) && Allowed(tool - {resource}, config)
  {
    var others := tool - {resource};
    if HasResource(config, resource) && Allowed(others, config) {
      forall r | r in tool
        ensures HasResource(config, r) && forall p :: p in tool[r] ==> Granted(config, r, p)
      {
        if r != resource {
          assert r in others;
        }
      }
    }
  }

  /** A tool asking for one key needs exactly that key to be granted. */
  lemma SingleRequirement(config: Configuration, resource: string, permission: string, declared: bool)
    ensures Allowed(map[resource := map[permission := declared]], config) <==> Granted(config, resource, permission)
  {
    var tool: ToolActions := map[resource := map[permission := declared]];
    assert resource in tool && permission in tool[resource];
  }

  /** Only the tool's keys are read: two tools with the same keys are judged alike. */
  lemma OnlyKeysMatter(tool1: ToolActions, tool2: ToolActions, config: Configuration)
    requires tool1.Keys == tool2.Keys
    requires forall r :: r in tool1 ==> tool1[r].Keys == tool2[r].Keys
    ensures Allowed(tool1, config) == Allowed(tool2, config)
  {
    if Allowed(tool1, config) {
      forall r | r in tool2 ensures forall p :: p in tool2[r] ==> Granted(config, r, p) {
        assert r in tool1;
      }
    }
    if Allowed(tool2, config) {
      forall r | r in tool1 ensures forall p :: p in tool1[r] ==> Granted(config, r, p) {
        assert r in tool2;
      }
    }
  }

  /** A tool that declares `{"create": False}` still needs `create` granted. */
  lemma DeclaredFalseStillRequired(config: Configuration)
    ensures Allowed(map["appointments" := map["create" := false]], config) <==>
      Granted(config, "appointments", "create")
  {
    SingleRequirement(config, "appointments", "create", false);
  }

  // ---------------------------------------------------------------------------
  // Monotonicity.

  /** `wider` has every resource of `narrower` and grants everything it grants. */
  ghost predicate Extends(narrower: Configuration, wider: Configuration)
  {
    && ActionsOf(narrower).Keys <= ActionsOf(wider).Keys
    && forall r, p :: Granted(narrower, r, p) ==> Granted(wider, r, p)
  }

  /** Widening the configuration never turns an allowed tool into a rejected one. */
  lemma AllowedMonotone(tool: ToolActions, narrower: Configuration, wider: Configuration)
    requires Extends(narrower, wider) && Allowed(tool, narrower)
    ensures Allowed(tool, wider)
  {
    forall r | r in tool
      ensures HasResource(wider, r) && forall p :: p in tool[r] ==> Granted(wider, r, p)
    {
      assert HasResource(narrower, r);
      forall p | p in tool[r] ensures Granted(wider, r, p) {
        assert Granted(narrower, r, p);
      }
    }
  }

  /** The configuration with `permission` on `resource` set to true (adding the resource if needed). */
  function GrantPermission(config: Configuration, resource: string, permission: string): (c: Configuration)
    ensures Granted(c, resource, permission)
    ensures c.context == config.context
  {
    var actions := ActionsOf(config);
    var grants := if resource in actions then actions[resource] else map[];
    Configuration(Some(actions[resource := grants[permission := Some(true)]]), config.context)
  }

  /** The configuration with one more resource, granting `grants`. */
  function AddResource(config: Configuration, resource: string, grants: Permission): (c: Configuration)
    requires !HasResource(config, resource)
    ensures HasResource(c, resource) && ActionsOf(c)[resource] == grants
    ensures c.context == config.context
  {
    Configuration(Some(ActionsOf(config)[resource := grants]), config.context)
  }

  /** Setting a permission to true only widens a configuration. */
  lemma GrantPermissionExtends(config: Configuration, resource: string, permission: string)
    ensures Extends(config, GrantPermission(config, resource, permission))
  {
    var wider := GrantPermission(config, resource, permission);
    forall r, p | Granted(config, r, p) ensures Granted(wider, r, p) {
      if r == resource && p != permission {
        assert ActionsOf(wider)[r][p] == ActionsOf(config)[r][p];
      }
    }
  }

  /** Adding a resource only widens a configuration. */
  lemma AddResourceExtends(config: Configuration, resource: string, grants: Permission)
    requires !HasResource(config, resource)
    ensures Extends(config, AddResource(config, resource, grants))
  {
  }

  /** Removing requirements from a tool never turns an allowed tool into a rejected one. */
  lemma FewerRequirementsStillAllowed(smaller: ToolActions, larger: ToolActions, config: Configuration)
    requires smaller.Keys <= larger.Keys
    requires forall r :: r in smaller ==> smaller[r].Keys <= larger[r].Keys
    requires Allowed(larger, config)
    ensures Allowed(smaller, config)
  {
    forall r | r in smaller
      ensures HasResource(config, r) && forall p :: p in smaller[r] ==> Granted(config, r, p)
    {
      assert r in larger;
    }
  }

  // ---------------------------------------------------------------------------
  // The declared shapes.

  /** A configuration that keeps to the declared shapes rejects any tool naming an undeclared resource. */
  lemma WellShapedRejectsUndeclaredResource(tool: ToolActions, config: Configuration, resource: string)
    requires WellShaped(config) && resource in tool && resource !in DeclaredResources
    ensures !Allowed(tool, config)
  {
    MissingResourceRejects(tool, config, resource);
  }

  /** ... and any tool asking for an undeclared permission key. */
  lemma WellShapedRejectsUndeclaredPermission(tool: ToolActions, config: Configuration, resource: string, permission: string)
    requires WellShaped(config) && resource in tool && permission in tool[resource]
    requires permission !in DeclaredPermissions
    ensures !Allowed(tool, config)
  {
    if HasResource(config, resource) {
      assert !Granted(config, resource, permission);
    }
  }
}
