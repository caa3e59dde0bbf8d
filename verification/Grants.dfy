/**
  The grant ceiling: what role edits and role assignments by non-local actors can never add,
  however the requests overlap.
 */
module Grants {
  import opened Wrappers
  import opened Excerpts
  import opened Roles

  type KeyId = string

  function Caps(custom: map<RoleId, Role>, id: RoleId): set<Capability> {
    var role := RoleFor(custom, id);
    if role.Some? then role.value.capabilities else {}
  }

  // ----- the checks

  /** None as issuer stands for the local machine. */
  predicate CanGrant(custom: map<RoleId, Role>, issuer: Option<RoleId>, target: Option<Role>) {
    && target.Some?
    && target.value.id != "owner"
    && target.value.assignable
    && (issuer.Some? ==>
          var role := RoleFor(custom, issuer.value);
          && role.Some?
          && KeyManage in role.value.capabilities
          && target.value.capabilities <= role.value.capabilities
          && target.value.modules <= role.value.modules
          && KeyManage !in target.value.capabilities)
  }

  datatype Denial =
    | UnknownRole
    | UnknownCapability(c: Capability)
    | OwnerOnly(c: Capability)
    | NotGrantable(c: Capability)

  /** Why an actor with this role may not switch this capability on. */
  function DenialOf(role: Role, local: bool, c: Capability): Option<Denial> {
    if c !in ALL_CAPABILITIES then Some(UnknownCapability(c))
    else if c in OWNER_ONLY && !local then Some(OwnerOnly(c))
    else if c !in role.capabilities then Some(NotGrantable(c))
    else None
  }

  /** A request names capabilities and whether to switch them on. */
  datatype Switch = Switch(c: Capability, on: bool)

  function On(switches: seq<Switch>): set<Capability> {
    set s | s in switches && s.on :: s.c
  }

  predicate Grantable(custom: map<RoleId, Role>, actor: RoleId, local: bool, caps: set<Capability>) {
    var role := RoleFor(custom, actor);
    role.Some? && caps <= role.value.capabilities * ALL_CAPABILITIES - (if local then {} else OWNER_ONLY)
  }

  method AssertCapabilitiesGrantable(custom: map<RoleId, Role>, actor: RoleId, local: bool, switches: seq<Switch>)
      returns (denied: Option<Denial>)
    ensures denied.None? <==> Grantable(custom, actor, local, On(switches))
    ensures denied == Some(UnknownRole) <==> RoleFor(custom, actor).None?
    ensures denied.Some? && RoleFor(custom, actor).Some? ==>
      exists i :: 0 <= i < |switches| && switches[i].on
        && Grantable(custom, actor, local, On(switches[..i]))
        && var c := switches[i].c;
           denied.value == if c.Unknown? then UnknownCapability(c)
                           else if c == KeyManage && !local then OwnerOnly(c)
                           else NotGrantable(c)
  {
    var role := RoleFor(custom, actor);
    if role.None? {
      return Some(UnknownRole);
    }
    for i := 0 to |switches|
      invariant forall s | s in switches[..i] && s.on :: DenialOf(role.value, local, s.c).None?
    {
      var s := switches[i];
      assert switches[..i + 1] == switches[..i] + [s];
      if !s.on {
        continue;
      }
      denied := DenialOf(role.value, local, s.c);
      if denied.Some? {
        assert s.c in On(switches);
        return;
      }
    }
    assert switches[..|switches|] == switches;
    return None;
  }

  // ----- changing the role of a key

  datatype KeyRecord = KeyRecord(id: KeyId, role: RoleId, local: bool)

  datatype SetRole = NoSuchRole | NotModifiable | NotGranted | NoSuchKey | Done(record: KeyRecord)

  function FirstWith(records: seq<KeyRecord>, id: KeyId): Option<nat> {
    if records == [] then None
    else if records[0].id == id then Some(0)
    else
      var rest := FirstWith(records[1..], id);
      if rest.Some? then Some(rest.value + 1) else None
  }

  lemma {:induction false} FirstWithIsFirst(records: seq<KeyRecord>, id: KeyId)
    ensures var r := FirstWith(records, id);
      && (r.Some? ==> r.value < |records| && records[r.value].id == id)
      && (r.Some? ==> forall i | 0 <= i < r.value :: records[i].id != id)
      && (r.None? ==> forall i | 0 <= i < |records| :: records[i].id != id)
  {
    if records != [] {
      FirstWithIsFirst(records[1..], id);
    }
  }

  /** A record without a role counts as a member. */
  function RoleOfRecord(r: KeyRecord): RoleId {
    if r.role == "" then "member" else r.role
  }

  function Outcome(custom: map<RoleId, Role>, records: seq<KeyRecord>, id: KeyId, role: RoleId,
                   issuer: Option<RoleId>): SetRole {
    var target := RoleFor(custom, role);
    var at := FirstWith(records, id);
    if target.None? then NoSuchRole
    else if at.None? then NoSuchKey
    else
      FirstWithIsFirst(records, id);
      var rec := records[at.value];
      if rec.local then NotModifiable
      else if RoleOfRecord(rec) == role then Done(rec)
      else if RoleOfRecord(rec) == "owner" then NotModifiable
      else if !CanGrant(custom, issuer, target) then NotGranted
      else Done(rec.(role := role))
  }

  /**
    Who may give a key a role: the key is no local one, and either it has the role
    already, or neither role is the owner's, the new one can be given away, and
    the issuer is the local machine or a role that may manage keys and has all
    that the new one has, which itself may not manage keys.
   */
  lemma SetRoleIff(custom: map<RoleId, Role>, records: seq<KeyRecord>, id: KeyId, role: RoleId,
                   issuer: Option<RoleId>, i: nat)
    requires WellFormed(custom)
    requires i < |records| && records[i].id == id && forall k | 0 <= k < i :: records[k].id != id
    ensures var has := if records[i].role == "" then "member" else records[i].role;
      Outcome(custom, records, id, role, issuer).Done? <==>
        && role != "" && role in AllRoles(custom)
        && !records[i].local
        && (has == role ||
            (&& has != "owner" && role != "owner"
             && AllRoles(custom)[role].assignable
             && (issuer.None? ||
                 (&& issuer.value != "" && issuer.value in AllRoles(custom)
                  && KeyManage in AllRoles(custom)[issuer.value].capabilities
                  && AllRoles(custom)[role].capabilities <= AllRoles(custom)[issuer.value].capabilities
                  && AllRoles(custom)[role].modules <= AllRoles(custom)[issuer.value].modules
                  && KeyManage !in AllRoles(custom)[role].capabilities))))
    ensures Outcome(custom, records, id, role, issuer).Done? ==>
      && Outcome(custom, records, id, role, issuer).record.id == id
      && RoleOfRecord(Outcome(custom, records, id, role, issuer).record) == role
      && !Outcome(custom, records, id, role, issuer).record.local
  {
    FirstWithIsFirst(records, id);
    assert FirstWith(records, id) == Some(i);
    if role in AllRoles(custom) {
      RolesHaveTheirIds(custom, role);
    }
    hide BUILTIN_ROLES, AllRoles;
  }

  lemma RolesHaveTheirIds(custom: map<RoleId, Role>, id: RoleId)
    requires WellFormed(custom) && id in AllRoles(custom)
    ensures AllRoles(custom)[id].id == id
  {
  }

  class KeyStore {
    var records: seq<KeyRecord>

    constructor (records: seq<KeyRecord>)
      ensures this.records == records
    {
      this.records := records;
    }

    method SetTokenRole(custom: map<RoleId, Role>, id: KeyId, role: RoleId, issuer: Option<RoleId>)
        returns (r: SetRole)
      modifies this
      ensures r == Outcome(custom, old(records), id, role, issuer)
      ensures r.Done? ==> FirstWith(old(records), id).Some?
      ensures records == if r.Done? then
          (FirstWithIsFirst(old(records), id); old(records)[FirstWith(old(records), id).value := r.record])
        else old(records)
    {
      hide CanGrant;
      var target := RoleFor(custom, role);
      if target.None? {
        return NoSuchRole;
      }
      FirstWithIsFirst(records, id);
      for i := 0 to |records|
        invariant records == old(records)
        invariant forall k | 0 <= k < i :: records[k].id != id
      {
        var rec := records[i];
        if rec.id != id {
          continue;
        }
        assert FirstWith(records, id) == Some(i);
        if rec.local {
          return NotModifiable;
        }
        var current := RoleOfRecord(rec);
        if current == role {
          assert records[i := rec] == records;
          return Done(rec);
        }
        if current == "owner" {
          return NotModifiable;
        }
        if !CanGrant(custom, issuer, target) {
          return NotGranted;
        }
        records := records[i := rec.(role := role)];
        return Done(rec.(role := role));
      }
      return NoSuchKey;
    }
  }

  // ----- overlapping requests

  /** A change that a request asks for, once its check has passed. */
  datatype Change =
    | Create(name: string, modules: set<Area>, capabilities: set<Capability>)
    | Update(id: RoleId, newName: Option<string>, newModules: Option<set<Area>>,
             newCapabilities: Option<set<Capability>>)
    | Delete(id: RoleId)
    | Assign(key: KeyId, role: RoleId)

  /** The custom roles and the role of every device key; beside them the roles any key has had
      and the changes that were checked but not written yet. */
  datatype State = State(custom: map<RoleId, Role>, keys: map<KeyId, RoleId>, held: set<RoleId>, checked: set<Change>)

  /** A request by a key is checked and later written; a key acts with the role it had when its
      request came in, and other requests may be checked and written in between. */
  datatype Event = Check(actor: RoleId, change: Change) | Write(change: Change, freshId: RoleId)

  predicate Passes(s: State, actor: RoleId, change: Change) {
    match change
    case Create(_, _, caps) => AclManage in Caps(s.custom, actor) && Grantable(s.custom, actor, false, caps)
    case Update(_, _, _, caps) =>
      AclManage in Caps(s.custom, actor) && (caps.Some? ==> Grantable(s.custom, actor, false, caps.value))
    case Delete(id) => AclManage in Caps(s.custom, actor) && id !in s.keys.Values
    case Assign(_, role) => CanGrant(s.custom, Some(actor), RoleFor(s.custom, role))
  }

  /** Ids of new roles are random: this one was never seen. */
  predicate Unseen(s: State, id: RoleId) {
    && id != "" && id !in AllRoles(s.custom) && id !in s.held
    && forall c | c in s.checked && c.Assign? :: c.role != id
  }

  predicate Legal(s: State, e: Event) {
    match e
    case Check(actor, change) => actor in s.held && Passes(s, actor, change)
    case Write(change, freshId) => change in s.checked && (change.Create? ==> Unseen(s, freshId))
  }

  function Written(s: State, change: Change, freshId: RoleId): State {
    match change
    case Create(name, modules, caps) =>
      var clean := Stripped(name);
      if clean == "" then s
      else s.(custom := s.custom[freshId := Role(freshId, clean, false, true, true,
                                                 modules * ALL_MODULES, caps * ALL_CAPABILITIES)])
    case Update(id, name, modules, caps) =>
      if id in BUILTIN_ROLES || id !in s.custom then s
      else s.(custom := s.custom[id := Updated(s.custom[id], name, modules, caps)])
    case Delete(id) =>
      if id in BUILTIN_ROLES then s else s.(custom := s.custom - {id})
    case Assign(key, role) =>
      if key !in s.keys || s.keys[key] == "owner" then s
      else s.(keys := s.keys[key := role], held := s.held + {role})
  }

  function Next(s: State, e: Event): State {
    match e
    case Check(_, change) => s.(checked := s.checked + {change})
    case Write(change, freshId) => Written(s, change, freshId).(checked := s.checked - {change})
  }

  predicate LegalRun(s: State, events: seq<Event>)
    decreases |events|
  {
    events == [] || (Legal(s, events[0]) && LegalRun(Next(s, events[0]), events[1..]))
  }

  function After(s: State, events: seq<Event>): State
    decreases |events|
  {
    if events == [] then s else After(Next(s, events[0]), events[1..])
  }

  /** Whoever changes roles may manage access, whoever gives one away may manage keys, and what a key has is
      not deleted. */
  lemma PassingNeedsPower(s: State, actor: RoleId, change: Change)
    requires Passes(s, actor, change)
    ensures !change.Assign? ==> AclManage in Caps(s.custom, actor)
    ensures change.Assign? ==> KeyManage in Caps(s.custom, actor)
    ensures change.Delete? ==> forall k | k in s.keys :: s.keys[k] != change.id
  {
    hide BUILTIN_ROLES;
    if change.Delete? {
      assert forall k | k in s.keys :: s.keys[k] in s.keys.Values;
    }
  }

  /** What one write does to what each role may do, and to each key: this and no more. */
  lemma WriteIsExact(s: State, change: Change, freshId: RoleId, id: RoleId)
    requires WellFormed(s.custom)
    requires change.Create? ==> freshId != "" && freshId !in AllRoles(s.custom)
    ensures var next := Written(s, change, freshId); var before := Caps(s.custom, id);
      && Caps(next.custom, id) ==
        (match change
         case Create(name, _, caps) => if id == freshId && !Blank(name) then caps * ALL_CAPABILITIES else before
         case Update(r, _, _, Some(caps)) =>
           if id == r && r in s.custom then caps * ALL_CAPABILITIES else before
         case Delete(r) => if id == r && r !in BUILTIN_ROLES then {} else before
         case _ => before)
      && next.keys ==
         if change.Assign? && change.key in s.keys && s.keys[change.key] != "owner"
         then s.keys[change.key := change.role] else s.keys
  {
    hide BUILTIN_ROLES, Stripped, Caps, ALL_CAPABILITIES, ALL_MODULES;
    var custom := Written(s, change, freshId).custom;
    match change
    case Create(name, _, _) =>
      StrippedToNothing(name);
      if Stripped(name) != "" {
        CapsWith(s.custom, freshId, custom[freshId], id);
      }
    case Update(r, _, _, _) =>
      if r in s.custom {
        CapsWith(s.custom, r, custom[r], id);
      }
    case Delete(r) =>
      if r !in BUILTIN_ROLES {
        CapsWithout(s.custom, r, id);
      }
    case Assign(_, _) =>
  }

  // ----- what stays bounded

  /** Everything that some key may do. */
  function Reachable(s: State): set<Capability> {
    set k, c | k in s.keys && c in Caps(s.custom, s.keys[k]) :: c
  }

  /** The keys that may manage keys. */
  function Managers(s: State): set<KeyId> {
    set k | k in s.keys && KeyManage in Caps(s.custom, s.keys[k])
  }

  predicate Harmless(custom: map<RoleId, Role>, change: Change, bound: set<Capability>) {
    match change
    case Create(_, _, caps) => caps <= bound - OWNER_ONLY
    case Update(_, _, _, caps) => caps.Some? ==> caps.value <= bound - OWNER_ONLY
    case Delete(_) => true
    case Assign(_, role) => Caps(custom, role) <= bound - OWNER_ONLY
  }

  predicate Bounded(s: State, bound: set<Capability>) {
    && WellFormed(s.custom)
    && (forall r | r in s.held :: Caps(s.custom, r) <= bound)
    && (forall k | k in s.keys :: s.keys[k] in s.held)
    && (forall c | c in s.checked :: Harmless(s.custom, c, bound))
  }

  lemma PassedIsHarmless(s: State, actor: RoleId, change: Change, bound: set<Capability>)
    requires Bounded(s, bound) && actor in s.held && Passes(s, actor, change)
    ensures Harmless(s.custom, change, bound)
  {
    assert Caps(s.custom, actor) <= bound;
  }

  lemma CapsWith(custom: map<RoleId, Role>, id: RoleId, role: Role, other: RoleId)
    requires WellFormed(custom) && id !in BUILTIN_ROLES && id != ""
    ensures Caps(custom[id := role], other) == if other == id then role.capabilities else Caps(custom, other)
    ensures id in custom ==> Caps(custom, id) == custom[id].capabilities
  {
    hide BUILTIN_ROLES;
  }

  lemma CapsWithout(custom: map<RoleId, Role>, id: RoleId, other: RoleId)
    requires WellFormed(custom) && id !in BUILTIN_ROLES
    ensures Caps(custom - {id}, other) == if other == id then {} else Caps(custom, other)
  {
    hide BUILTIN_ROLES;
  }

  /** A write gives no role but the new one anything that the bound does not allow, and never key management. */
  lemma WriteTames(s: State, change: Change, freshId: RoleId, bound: set<Capability>, id: RoleId)
    requires Bounded(s, bound) && Legal(s, Write(change, freshId))
    ensures WellFormed(Written(s, change, freshId).custom)
    ensures id != freshId || !change.Create? ==>
      var caps := Caps(Written(s, change, freshId).custom, id);
      caps <= Caps(s.custom, id) || caps <= bound - OWNER_ONLY
  {
    hide BUILTIN_ROLES, Stripped, Caps, ALL_CAPABILITIES, ALL_MODULES;
    assert Harmless(s.custom, change, bound);
    var custom := Written(s, change, freshId).custom;
    match change
    case Create(name, modules, caps) =>
      if Stripped(name) != "" {
        CapsWith(s.custom, freshId, custom[freshId], id);
      }
    case Update(r, _, _, _) =>
      if r !in BUILTIN_ROLES && r in s.custom {
        CapsWith(s.custom, r, custom[r], id);
      }
    case Delete(r) =>
      if r !in BUILTIN_ROLES {
        CapsWithout(s.custom, r, id);
      }
    case Assign(_, _) =>
  }

  lemma StepKeepsBound(s: State, e: Event, bound: set<Capability>)
    requires Bounded(s, bound) && Legal(s, e)
    ensures Bounded(Next(s, e), bound)
  {
    hide BUILTIN_ROLES, Caps, Passes;
    var next := Next(s, e);
    match e
    case Check(actor, change) =>
      PassedIsHarmless(s, actor, change, bound);
      assert forall c | c in s.checked :: Harmless(s.custom, c, bound) == Harmless(next.custom, c, bound);
    case Write(change, freshId) =>
      WriteTames(s, change, freshId, bound, freshId);
      hide Written;
      forall r | r in next.held ensures Caps(next.custom, r) <= bound {
        WriteTames(s, change, freshId, bound, r);
        HeldBefore(s, change, freshId, bound, r);
      }
      forall c | c in next.checked ensures Harmless(next.custom, c, bound) {
        assert Harmless(s.custom, c, bound);
        if c.Assign? {
          WriteTames(s, change, freshId, bound, c.role);
        }
      }
  }

  lemma HeldBefore(s: State, change: Change, freshId: RoleId, bound: set<Capability>, r: RoleId)
    requires Bounded(s, bound) && Legal(s, Write(change, freshId))
    requires r in Written(s, change, freshId).held
    ensures Caps(s.custom, r) <= bound
    ensures change.Create? ==> r != freshId
  {
    hide BUILTIN_ROLES, Caps, ALL_CAPABILITIES, ALL_MODULES;
    assert Harmless(s.custom, change, bound);
  }

  lemma {:induction false} RunKeepsBound(s: State, events: seq<Event>, bound: set<Capability>)
    requires Bounded(s, bound) && LegalRun(s, events)
    ensures Bounded(After(s, events), bound)
    decreases |events|
  {
    hide Bounded, Legal, Next;
    if events != [] {
      StepKeepsBound(s, events[0], bound);
      RunKeepsBound(Next(s, events[0]), events[1..], bound);
    }
  }

  /** No request open, and no key had another role than the one it has. */
  predicate Quiet(s: State) {
    WellFormed(s.custom) && s.held == s.keys.Values && s.checked == {}
  }

  lemma QuietIsBounded(s: State)
    requires Quiet(s)
    ensures Bounded(s, Reachable(s))
  {
    hide BUILTIN_ROLES, Caps;
    forall r | r in s.held ensures Caps(s.custom, r) <= Reachable(s) {
      var k :| k in s.keys && s.keys[k] == r;
    }
  }

  /** The ceiling: whatever requests non-local actors make and however these overlap, the keys
      together never reach a capability that they did not reach at the start. */
  lemma ReachNeverGrows(s: State, events: seq<Event>)
    requires Quiet(s) && LegalRun(s, events)
    ensures Reachable(After(s, events)) <= Reachable(s)
  {
    hide Caps, BUILTIN_ROLES;
    var bound, end := Reachable(s), After(s, events);
    QuietIsBounded(s);
    RunKeepsBound(s, events, bound);
    forall c | c in Reachable(end) ensures c in bound {
      var k :| k in end.keys && c in Caps(end.custom, end.keys[k]);
      assert Caps(end.custom, end.keys[k]) <= bound;
    }
  }

  /** No single step, checked or written, gives another key the power to manage keys. */
  lemma ManagersNeverGrow(s: State, e: Event, bound: set<Capability>)
    requires Bounded(s, bound) && Legal(s, e)
    ensures Managers(Next(s, e)) <= Managers(s)
  {
    hide BUILTIN_ROLES, Caps, ALL_CAPABILITIES, ALL_MODULES, Passes;
    var next := Next(s, e);
    if e.Write? {
      forall k | k in Managers(next) ensures k in Managers(s) {
        HeldBefore(s, e.change, e.freshId, bound, next.keys[k]) by {
        }
        WriteTames(s, e.change, e.freshId, bound, next.keys[k]);
        assert Harmless(s.custom, e.change, bound);
      }
    }
  }

  lemma {:induction false} RunGainsNoManager(s: State, events: seq<Event>, bound: set<Capability>)
    requires Bounded(s, bound) && LegalRun(s, events)
    ensures Managers(After(s, events)) <= Managers(s)
    decreases |events|
  {
    hide Bounded, Legal, Next, Managers;
    if events != [] {
      StepKeepsBound(s, events[0], bound);
      ManagersNeverGrow(s, events[0], bound);
      RunGainsNoManager(Next(s, events[0]), events[1..], bound);
    }
  }

  // ----- requests one at a time

  /** The state between requests, seen on its own. */
  function Settled(custom: map<RoleId, Role>, keys: map<KeyId, RoleId>): State {
    State(custom, keys, keys.Values, {})
  }

  /** When no other request comes between check and write, the reach of the keys shrinks with every
      request, not only against the start. */
  lemma OneRequestAtATime(custom: map<RoleId, Role>, keys: map<KeyId, RoleId>, actor: RoleId, change: Change,
                          freshId: RoleId)
    requires WellFormed(custom) && actor in keys.Values
    requires Passes(Settled(custom, keys), actor, change)
    requires change.Create? ==>
      freshId != "" && freshId !in AllRoles(custom) && freshId !in keys.Values
    ensures var s := Settled(custom, keys); var next := After(s, [Check(actor, change), Write(change, freshId)]);
      Reachable(next) <= Reachable(s) && Managers(next) <= Managers(s)
  {
    hide Passes, Caps, BUILTIN_ROLES, Reachable, Managers, Written;
    var s := Settled(custom, keys);
    var events := [Check(actor, change), Write(change, freshId)];
    var mid := Next(s, events[0]);
    RunOfTwo(s, events[0], events[1]);
    hide LegalRun, After;
    ReachNeverGrows(s, events);
    QuietIsBounded(s);
    RunGainsNoManager(s, events, Reachable(s));
  }

  // ----- exactly when one write widens the reach

  /** The write does something to a key, or to a role that a key has. */
  predicate Touches(s: State, change: Change) {
    match change
    case Create(_, _, _) => false
    case Delete(_) => false
    case Update(id, _, _, _) => id !in BUILTIN_ROLES && id in s.custom && id in s.keys.Values
    case Assign(key, _) => key in s.keys && s.keys[key] != "owner"
  }

  /** The capabilities that keys may get by the write. */
  function Brings(s: State, change: Change): set<Capability> {
    match change
    case Update(_, _, _, Some(caps)) => caps * ALL_CAPABILITIES
    case Assign(_, role) => Caps(s.custom, role)
    case _ => {}
  }

  lemma ReachHolds(s: State, key: KeyId)
    requires key in s.keys
    ensures Caps(s.custom, s.keys[key]) <= Reachable(s)
  {
  }

  lemma NewIdIsUnheld(s: State, change: Change, freshId: RoleId, key: KeyId)
    requires WellFormed(s.custom) && key in s.keys && !change.Assign?
    requires change.Create? ==> freshId != "" && freshId !in AllRoles(s.custom) && freshId !in s.keys.Values
    ensures Caps(Written(s, change, freshId).custom, s.keys[key]) <=
      if Touches(s, change) && change.Update? && change.id == s.keys[key] && change.newCapabilities.Some?
      then Brings(s, change) else Caps(s.custom, s.keys[key])
  {
    hide BUILTIN_ROLES, Stripped, Caps, ALL_CAPABILITIES, ALL_MODULES;
    var custom, id := Written(s, change, freshId).custom, s.keys[key];
    match change
    case Create(name, _, _) =>
      if Stripped(name) != "" {
        assert freshId !in BUILTIN_ROLES;
        CapsWith(s.custom, freshId, custom[freshId], id);
      }
    case Update(r, _, _, _) =>
      if r !in BUILTIN_ROLES && r in s.custom {
        CapsWith(s.custom, r, custom[r], id);
      }
    case Delete(r) =>
      if r !in BUILTIN_ROLES {
        CapsWithout(s.custom, r, id);
      }
  }

  /**
    A write leaves the keys together with no more than they had if and only if
    it touches no key and no role that a key has, or what it brings is within
    their reach already. The right-hand side can be looked up before the write.
   */
  lemma WriteWidensIff(s: State, change: Change, freshId: RoleId)
    requires WellFormed(s.custom)
    requires change.Create? ==> freshId != "" && freshId !in AllRoles(s.custom) && freshId !in s.keys.Values
    ensures Reachable(Written(s, change, freshId)) <= Reachable(s)
      <==> !Touches(s, change) || Brings(s, change) <= Reachable(s)
  {
    hide BUILTIN_ROLES, Stripped, Caps, Written, ALL_CAPABILITIES, ALL_MODULES;
    if !Touches(s, change) || Brings(s, change) <= Reachable(s) {
      ReachStays(s, change, freshId);
    } else {
      TouchedGetsAll(s, change, freshId);
    }
  }

  lemma ReachStays(s: State, change: Change, freshId: RoleId)
    requires WellFormed(s.custom)
    requires change.Create? ==> freshId != "" && freshId !in AllRoles(s.custom) && freshId !in s.keys.Values
    requires !Touches(s, change) || Brings(s, change) <= Reachable(s)
    ensures Reachable(Written(s, change, freshId)) <= Reachable(s)
  {
    hide BUILTIN_ROLES, Stripped, Caps, ALL_CAPABILITIES, ALL_MODULES;
    var next := Written(s, change, freshId);
    forall k | k in next.keys ensures Caps(next.custom, next.keys[k]) <= Reachable(s) {
      if k in s.keys {
        ReachHolds(s, k);
      }
      if !change.Assign? {
        NewIdIsUnheld(s, change, freshId, k);
      }
    }
  }

  lemma TouchedGetsAll(s: State, change: Change, freshId: RoleId)
    requires WellFormed(s.custom) && Touches(s, change)
    ensures Brings(s, change) <= Reachable(Written(s, change, freshId))
  {
    hide BUILTIN_ROLES, Stripped, Caps, ALL_CAPABILITIES, ALL_MODULES;
    var next := Written(s, change, freshId);
    if change.Assign? {
      ReachHolds(next, change.key);
    } else {
      var k :| k in s.keys && s.keys[k] == change.id;
      CapsWith(s.custom, change.id, next.custom[change.id], change.id);
      ReachHolds(next, k);
    }
  }

  lemma RunOfTwo(s: State, a: Event, b: Event)
    ensures After(s, [a, b]) == Next(Next(s, a), b)
    ensures LegalRun(s, [a, b]) <==> Legal(s, a) && Legal(Next(s, a), b)
  {
    hide Next, Legal;
    assert [a, b][1..] == [b] && [b][1..] == [];
    assert After(Next(s, a), [b]) == Next(Next(s, a), b);
    assert LegalRun(Next(s, a), [b]) <==> Legal(Next(s, a), b);
  }

  lemma RunOfThree(s: State, a: Event, b: Event, c: Event)
    ensures After(s, [a, b, c]) == Next(Next(Next(s, a), b), c)
    ensures LegalRun(s, [a, b, c]) <==> Legal(s, a) && Legal(Next(s, a), b) && Legal(Next(Next(s, a), b), c)
  {
    hide Next, Legal;
    assert [a, b, c][1..] == [b, c];
    RunOfTwo(Next(s, a), b, c);
  }

  // ----- where the ceiling ends

  const HELPER: Role := Role("role_b", "B", false, true, true, {Settings}, {AclManage})

  lemma RolesOfExample(r: Role)
    requires r.id == "role_b"
    ensures RoleFor(map["role_b" := r], "role_b") == Some(r)
    ensures RoleFor(map["role_b" := r], "admin") == Some(BUILTIN_ROLES["admin"])
    ensures RoleFor(map["role_b" := r], "member") == Some(BUILTIN_ROLES["member"])
    ensures "role_b" !in BUILTIN_ROLES && WellFormed(map["role_b" := r]) ==
      (r.capabilities <= ALL_CAPABILITIES && r.modules <= ALL_MODULES)
  {
  }

  const CAREFREE: State := Settled(map["role_b" := HELPER], map["a" := "admin", "b" := "role_b"])

  const EDIT: Change := Update("role_b", None, None, Some({ConfigWrite}))

  const DEMOTION: Change := Assign("a", "member")

  const EARLY: seq<Event> := [Check("admin", EDIT), Check("admin", DEMOTION), Write(DEMOTION, "")]

  /** The author of the edit is demoted before it is written. */
  lemma DemotedFirst()
    ensures LegalRun(CAREFREE, EARLY)
    ensures var s := After(CAREFREE, EARLY);
      && s.custom == CAREFREE.custom && s.keys == map["a" := "member", "b" := "role_b"]
      && EDIT in s.checked
  {
    var s1 := Next(CAREFREE, Check("admin", EDIT));
    var s2 := Next(s1, Check("admin", DEMOTION));
    var s3 := Next(s2, Write(DEMOTION, ""));
    RolesOfExample(HELPER);
    hide BUILTIN_ROLES, Stripped;
    BuiltinCaps();
    assert "admin" in CAREFREE.held by {
      assert CAREFREE.keys["a"] == "admin";
    }
    RunOfThree(CAREFREE, Check("admin", EDIT), Check("admin", DEMOTION), Write(DEMOTION, ""));
    hide After, LegalRun;
    assert s3.keys == map["a" := "member", "b" := "role_b"];
  }

  /** With overlap the bound is the start, not the step before: an edit checked while its author was
      an administrator and written after the author's own demotion widens what the keys reach then. */
  lemma LateWriteWidensAgain()
    ensures LegalRun(CAREFREE, EARLY) && Legal(After(CAREFREE, EARLY), Write(EDIT, ""))
    ensures ConfigWrite !in Reachable(After(CAREFREE, EARLY))
    ensures ConfigWrite in Reachable(Next(After(CAREFREE, EARLY), Write(EDIT, "")))
  {
    DemotedFirst();
    RolesOfExample(HELPER);
    hide BUILTIN_ROLES, Stripped, After, LegalRun;
    BuiltinCaps();
    var s := After(CAREFREE, EARLY);
    var next := Next(s, Write(EDIT, ""));
    var edited := next.custom["role_b"];
    assert next.custom == map["role_b" := edited];
    RolesOfExample(edited);
    assert ConfigWrite in Caps(next.custom, next.keys["b"]);
  }

  lemma BuiltinCaps()
    ensures "admin" in BUILTIN_ROLES && "member" in BUILTIN_ROLES
    ensures BUILTIN_ROLES["admin"].capabilities == ALL_CAPABILITIES && BUILTIN_ROLES["member"].capabilities == {}
    ensures BUILTIN_ROLES["admin"].modules == ALL_MODULES == BUILTIN_ROLES["member"].modules
    ensures BUILTIN_ROLES["member"].id == "member" && BUILTIN_ROLES["member"].assignable
  {
  }

  function Modules(custom: map<RoleId, Role>, id: RoleId): set<Area> {
    var role := RoleFor(custom, id);
    if role.Some? then role.value.modules else {}
  }

  /** Everything that some key may enter. */
  function ReachableModules(s: State): set<Area> {
    set k, m | k in s.keys && m in Modules(s.custom, s.keys[k]) :: m
  }

  lemma ModulesWith(custom: map<RoleId, Role>, id: RoleId, role: Role, other: RoleId)
    requires WellFormed(custom) && id !in BUILTIN_ROLES && id != ""
    ensures Modules(custom[id := role], other) == if other == id then role.modules else Modules(custom, other)
    ensures id in custom ==> Modules(custom, id) == custom[id].modules
  {
    hide BUILTIN_ROLES;
  }

  /**
    An edit opens no module that was closed to all keys if and only if it names no
    modules, no key has the role, or the modules it names are open to some key already.
    Its check looks at none of this.
   */
  lemma EditWidensModulesIff(s: State, id: RoleId, name: Option<string>, modules: Option<set<Area>>,
                             caps: Option<set<Capability>>)
    requires WellFormed(s.custom) && id in s.custom
    ensures ReachableModules(Written(s, Update(id, name, modules, caps), "")) <= ReachableModules(s)
      <==> modules.None? || id !in s.keys.Values || modules.value * ALL_MODULES <= ReachableModules(s)
  {
    hide BUILTIN_ROLES, Stripped, Modules, ALL_CAPABILITIES, ALL_MODULES;
    var next := Written(s, Update(id, name, modules, caps), "");
    forall k | k in s.keys
      ensures Modules(next.custom, s.keys[k]) ==
        if s.keys[k] == id && modules.Some? then modules.value * ALL_MODULES else Modules(s.custom, s.keys[k])
    {
      ModulesWith(s.custom, id, next.custom[id], s.keys[k]);
      ModulesWith(s.custom, id, next.custom[id], id);
    }
    if id in s.keys.Values && modules.Some? {
      var k :| k in s.keys && s.keys[k] == id;
    }
    forall k | k in s.keys ensures Modules(s.custom, s.keys[k]) <= ReachableModules(s) {
    }
  }

  /** An assignment passes its check only within the modules of the actor, too ... */
  lemma AssignmentKeepsModules(s: State, actor: RoleId, key: KeyId, role: RoleId)
    requires Passes(s, actor, Assign(key, role))
    ensures Modules(s.custom, role) <= Modules(s.custom, actor)
  {
  }

  /** ... but an edit does not: a role that may edit roles can open every module to itself. */
  lemma EditsMayWidenModules()
    ensures var s := Settled(map["role_b" := HELPER], map["b" := "role_b"]);
      var edit := Update("role_b", None, Some(ALL_MODULES), None);
      var run := [Check("role_b", edit), Write(edit, "")];
      && LegalRun(s, run)
      && Modules(s.custom, "role_b") == {Settings}
      && Modules(After(s, run).custom, "role_b") == ALL_MODULES
  {
    var s := Settled(map["role_b" := HELPER], map["b" := "role_b"]);
    var edit := Update("role_b", None, Some(ALL_MODULES), None);
    var run := [Check("role_b", edit), Write(edit, "")];
    RolesOfExample(HELPER);
    hide BUILTIN_ROLES, Stripped;
    assert "role_b" in s.held by {
      assert s.keys["b"] == "role_b";
    }
    var s1 := Next(s, run[0]);
    var s2 := Next(s1, run[1]);
    RunOfTwo(s, run[0], run[1]);
    hide After, LegalRun;
    var edited := s2.custom["role_b"];
    assert s2.custom == map["role_b" := edited];
    RolesOfExample(edited);
  }
}
