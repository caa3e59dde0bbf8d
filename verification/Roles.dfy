/**
  Role definitions: four built-in ones fixed in the code and custom ones from a file
  that anybody may have edited.
 */
module Roles {
  import opened Wrappers
  import opened Excerpts

  /** The five capabilities the program knows; a request or a file may name others. */
  datatype Capability = ConfigWrite | KeyManage | AclManage | CollectionCreate | BoxManage | Unknown(name: string)

  datatype Area = Chat | Database | Recall | Tasks | Settings | NoArea(name: string)

  const ALL_CAPABILITIES: set<Capability> := {ConfigWrite, KeyManage, AclManage, CollectionCreate, BoxManage}
  const ALL_MODULES: set<Area> := {Chat, Database, Recall, Tasks, Settings}
  const OWNER_ONLY: set<Capability> := {KeyManage}

  type RoleId = string

  datatype Role = Role(id: RoleId, name: string, builtin: bool, assignable: bool, editable: bool,
                       modules: set<Area>, capabilities: set<Capability>)

  const BUILTIN_ROLES: map<RoleId, Role> := map[
    "owner" := Role("owner", "Owner", true, false, false, ALL_MODULES, ALL_CAPABILITIES),
    "admin" := Role("admin", "Admin", true, true, false, ALL_MODULES, ALL_CAPABILITIES),
    "member" := Role("member", "Member", true, true, false, ALL_MODULES, {}),
    "visitor" := Role("visitor", "Visitor", true, true, false, {Chat, Database, Settings}, {})
  ]

  // ----- reading the file

  /** An entry of the file: the switches that are on, known or not. */
  datatype Entry = NotAnObject | Entry(id: string, name: string, builtin: bool, assignable: bool, editable: bool,
                                       modules: set<Area>, capabilities: set<Capability>)

  datatype File = Missing | Unreadable | Roles(entries: seq<Entry>)

  /** str.strip */
  function Stripped(s: string): (r: string)
    ensures r != "" ==> !IsSpace(r[0]) && !IsSpace(r[|r| - 1])
    decreases |s|
  {
    if s == "" then ""
    else if IsSpace(s[0]) then Stripped(s[1..])
    else if IsSpace(s[|s| - 1]) then Stripped(s[..|s| - 1])
    else s
  }

  predicate Middle(s: string, part: string, lo: nat, hi: nat) {
    lo <= hi <= |s| && part == s[lo..hi] && Blank(s[..lo]) && Blank(s[hi..])
  }

  lemma MoreInFront(c: char, s: string, part: string, lo: nat, hi: nat)
    requires IsSpace(c) && Middle(s, part, lo, hi)
    ensures Middle([c] + s, part, lo + 1, hi + 1)
  {
    hide IsSpace;
    var more := [c] + s;
    assert more[lo + 1..hi + 1] == s[lo..hi] && more[hi + 1..] == s[hi..];
    assert more[..lo + 1] == [c] + s[..lo];
  }

  lemma MoreBehind(c: char, s: string, part: string, lo: nat, hi: nat)
    requires IsSpace(c) && Middle(s, part, lo, hi)
    ensures Middle(s + [c], part, lo, hi)
  {
    hide IsSpace;
    var more := s + [c];
    assert more[lo..hi] == s[lo..hi] && more[..lo] == s[..lo];
    assert more[hi..] == s[hi..] + [c];
  }

  /** What is left is the middle of the text: only white space went, on either side. */
  lemma {:induction false} StrippedIsMiddle(s: string)
    ensures exists lo, hi :: Middle(s, Stripped(s), lo, hi)
    decreases |s|
  {
    hide IsSpace, Middle;
    if s == "" || (!IsSpace(s[0]) && !IsSpace(s[|s| - 1])) {
      AllIsMiddle(s);
      assert Middle(s, Stripped(s), 0, |s|);
    } else if IsSpace(s[0]) {
      StrippedIsMiddle(s[1..]);
      var lo, hi :| Middle(s[1..], Stripped(s[1..]), lo, hi);
      MoreInFront(s[0], s[1..], Stripped(s), lo, hi);
      assert [s[0]] + s[1..] == s;
    } else {
      var front := s[..|s| - 1];
      StrippedIsMiddle(front);
      var lo, hi :| Middle(front, Stripped(front), lo, hi);
      MoreBehind(s[|s| - 1], front, Stripped(s), lo, hi);
      assert front + [s[|s| - 1]] == s;
    }
  }

  lemma AllIsMiddle(s: string)
    ensures Middle(s, s, 0, |s|)
  {
    assert s[0..|s|] == s && s[..0] == "" && s[|s|..] == "";
  }

  /** Nothing is left exactly when there was nothing but white space. */
  lemma {:induction false} StrippedToNothing(s: string)
    ensures Stripped(s) == "" <==> forall i | 0 <= i < |s| :: IsSpace(s[i])
    decreases |s|
  {
    hide IsSpace;
    if s != "" && IsSpace(s[0]) {
      StrippedToNothing(s[1..]);
      assert forall i | 0 < i < |s| :: s[i] == s[1..][i - 1];
    } else if s != "" && IsSpace(s[|s| - 1]) {
      StrippedToNothing(s[..|s| - 1]);
    }
  }

  function RoleOf(e: Entry): Option<Role> {
    if e.NotAnObject? || Stripped(e.id) == "" then None
    else
      var id := Stripped(e.id);
      Some(Role(id, if e.name == "" then id else e.name, e.builtin, e.assignable, e.editable,
                e.modules * ALL_MODULES, e.capabilities * ALL_CAPABILITIES))
  }

  /** Later entries win; entries under a built-in id are skipped. */
  function Customs(entries: seq<Entry>): map<RoleId, Role> {
    if entries == [] then map[]
    else
      var earlier := Customs(entries[..|entries| - 1]);
      var role := RoleOf(entries[|entries| - 1]);
      if role.None? || role.value.id in BUILTIN_ROLES then earlier else earlier[role.value.id := role.value]
  }

  function ReadCustoms(file: File): map<RoleId, Role> {
    if file.Roles? then Customs(file.entries) else map[]
  }

  function AllRoles(custom: map<RoleId, Role>): map<RoleId, Role> {
    BUILTIN_ROLES + custom
  }

  function RoleFor(custom: map<RoleId, Role>, id: RoleId): Option<Role> {
    if id != "" && id in AllRoles(custom) then Some(AllRoles(custom)[id]) else None
  }

  predicate WellFormed(custom: map<RoleId, Role>) {
    && custom.Keys !! BUILTIN_ROLES.Keys && "" !in custom
    && forall id | id in custom ::
      custom[id].id == id && custom[id].capabilities <= ALL_CAPABILITIES && custom[id].modules <= ALL_MODULES
  }

  lemma {:induction false} CustomsAreWellFormed(entries: seq<Entry>)
    ensures WellFormed(Customs(entries))
  {
    hide Stripped, BUILTIN_ROLES;
    if entries != [] {
      CustomsAreWellFormed(entries[..|entries| - 1]);
    }
  }

  predicate Names(e: Entry, id: RoleId) {
    e.Entry? && id != "" && Stripped(e.id) == id
  }

  /** The file defines a custom role exactly under the ids its entries give, as far as they are not built in,
      and the last entry for an id says what the role is and may do. */
  lemma {:induction false} LastEntryWins(entries: seq<Entry>, id: RoleId, i: nat)
    requires i < |entries| && Names(entries[i], id) && id !in BUILTIN_ROLES
    requires forall k | i < k < |entries| :: !Names(entries[k], id)
    ensures id in Customs(entries)
    ensures var e, r := entries[i], Customs(entries)[id];
      && r.id == id
      && r.name == (if e.name == "" then id else e.name)
      && r.builtin == e.builtin && r.assignable == e.assignable && r.editable == e.editable
      && (forall m :: m in r.modules <==> m in e.modules && !m.NoArea?)
      && (forall c :: c in r.capabilities <==> c in e.capabilities && !c.Unknown?)
    decreases |entries|
  {
    hide Stripped, BUILTIN_ROLES;
    var last := |entries| - 1;
    if i < last {
      LastEntryWins(entries[..last], id, i);
      assert !Names(entries[last], id);
    }
  }

  lemma {:induction false} OnlyNamedRoles(entries: seq<Entry>, id: RoleId)
    ensures id in Customs(entries) ==> id !in BUILTIN_ROLES && exists i :: 0 <= i < |entries| && Names(entries[i], id)
  {
    hide Stripped, BUILTIN_ROLES;
    if entries != [] {
      var last := |entries| - 1;
      OnlyNamedRoles(entries[..last], id);
      if id in Customs(entries) && id !in Customs(entries[..last]) {
        assert Names(entries[last], id);
      }
    }
  }

  /** No contents of the file, whoever wrote them, change a built-in role or what it may do. */
  lemma BuiltinsAreFixed(file: File, id: RoleId)
    requires id in BUILTIN_ROLES
    ensures AllRoles(ReadCustoms(file))[id] == BUILTIN_ROLES[id]
    ensures var r := AllRoles(ReadCustoms(file))[id];
      && id in {"owner", "admin", "member", "visitor"}
      && r.id == id && r.builtin && !r.editable && (r.assignable <==> id != "owner")
      && r.capabilities == (if id in {"owner", "admin"} then
           {ConfigWrite, KeyManage, AclManage, CollectionCreate, BoxManage} else {})
      && r.modules == (if id == "visitor" then {Chat, Database, Settings}
                       else {Chat, Database, Recall, Tasks, Settings})
  {
    BuiltinSays(id);
    hide BUILTIN_ROLES;
    if file.Roles? {
      CustomsAreWellFormed(file.entries);
    }
  }

  lemma BuiltinSays(id: RoleId)
    requires id in BUILTIN_ROLES
    ensures id in {"owner", "admin", "member", "visitor"}
    ensures var r := BUILTIN_ROLES[id];
      && r.id == id && r.builtin && !r.editable && (r.assignable <==> id != "owner")
      && r.capabilities == (if id in {"owner", "admin"} then
           {ConfigWrite, KeyManage, AclManage, CollectionCreate, BoxManage} else {})
      && r.modules == (if id == "visitor" then {Chat, Database, Settings}
                       else {Chat, Database, Recall, Tasks, Settings})
  {
  }

  // ----- the store

  datatype Refusal = InvalidName | BuiltinImmutable | NotFound

  function Updated(role: Role, name: Option<string>, modules: Option<set<Area>>,
                   capabilities: Option<set<Capability>>): Role {
    var wanted := Stripped(if name.Some? && name.value != "" then name.value else role.name);
    Role(role.id, if wanted == "" then role.name else wanted, false, true, true,
         if modules.Some? then modules.value * ALL_MODULES else role.modules,
         if capabilities.Some? then capabilities.value * ALL_CAPABILITIES else role.capabilities)
  }

  /** An edit changes what it names: a name that is not blank counts as stripped, a blank one leaves the name as it
      is, and without one the old name is stripped; modules and capabilities are replaced as a whole, unknown ones
      are dropped, and the role stays a custom one that can be edited and given away. */
  lemma UpdatedSays(role: Role, name: Option<string>, modules: Option<set<Area>>,
                    capabilities: Option<set<Capability>>)
    ensures var r := Updated(role, name, modules, capabilities);
      && r.id == role.id && !r.builtin && r.assignable && r.editable
      && (name.Some? && !Blank(name.value) ==> r.name == Stripped(name.value) && !Blank(r.name))
      && (name.Some? && name.value != "" && Blank(name.value) ==> r.name == role.name)
      && (name.None? || name.value == "" ==> r.name == if Blank(role.name) then role.name else Stripped(role.name))
      && (modules.None? ==> r.modules == role.modules)
      && (modules.Some? ==> forall m :: m in r.modules <==> m in modules.value && !m.NoArea?)
      && (capabilities.None? ==> r.capabilities == role.capabilities)
      && (capabilities.Some? ==> forall c :: c in r.capabilities <==> c in capabilities.value && !c.Unknown?)
  {
    hide Stripped, IsSpace;
    StrippedToNothing(role.name);
    if name.Some? {
      StrippedToNothing(name.value);
      StrippedAgain(name.value);
    }
  }

  lemma StrippedAgain(s: string)
    ensures !Blank(s) ==> !Blank(Stripped(s))
  {
    StrippedToNothing(s);
  }

  class RoleStore {
    /** What the file holds, as it reads. */
    var custom: map<RoleId, Role>

    constructor (file: File)
      ensures custom == ReadCustoms(file) && WellFormed(custom)
    {
      custom := map[];
      new;
      if file.Roles? {
        var entries := file.entries;
        for i := 0 to |entries|
          invariant custom == Customs(entries[..i])
        {
          assert entries[..i + 1][..i] == entries[..i];
          var role := RoleOf(entries[i]);
          if role.None? {
            continue;
          }
          if role.value.id in BUILTIN_ROLES {
            continue;
          }
          custom := custom[role.value.id := role.value];
        }
        assert entries[..|entries|] == entries;
        CustomsAreWellFormed(entries);
      }
    }

    method CreateCustomRole(name: string, modules: set<Area>, capabilities: set<Capability>, freshId: RoleId)
        returns (r: Result<Role, Refusal>)
      requires WellFormed(custom) && freshId !in AllRoles(custom) && freshId != ""
      modifies this
      ensures WellFormed(custom)
      ensures r.Failure? <==> Stripped(name) == ""
      ensures r.Failure? ==> custom == old(custom)
      ensures r.Success? ==> custom == old(custom)[freshId := r.value]
      ensures r.Success? ==> r.value == Role(freshId, Stripped(name), false, true, true,
                                             modules * ALL_MODULES, capabilities * ALL_CAPABILITIES)
    {
      hide Stripped, BUILTIN_ROLES;
      var clean := Stripped(name);
      if clean == "" {
        return Failure(InvalidName);
      }
      var role := Role(freshId, clean, false, true, true, modules * ALL_MODULES, capabilities * ALL_CAPABILITIES);
      custom := custom[freshId := role];
      return Success(role);
    }

    method UpdateCustomRole(id: RoleId, name: Option<string>, modules: Option<set<Area>>,
                            capabilities: Option<set<Capability>>) returns (r: Result<Role, Refusal>)
      requires WellFormed(custom)
      modifies this
      ensures WellFormed(custom)
      ensures r == if id in BUILTIN_ROLES then Failure(BuiltinImmutable)
                   else if id !in old(custom) then Failure(NotFound)
                   else Success(Updated(old(custom)[id], name, modules, capabilities))
      ensures custom == if r.Success? then old(custom)[id := r.value] else old(custom)
    {
      hide Stripped, BUILTIN_ROLES;
      if id in BUILTIN_ROLES {
        return Failure(BuiltinImmutable);
      }
      if id !in custom {
        return Failure(NotFound);
      }
      var updated := Updated(custom[id], name, modules, capabilities);
      custom := custom[id := updated];
      return Success(updated);
    }

    method DeleteCustomRole(id: RoleId) returns (r: Result<Role, Refusal>)
      requires WellFormed(custom)
      modifies this
      ensures WellFormed(custom)
      ensures r == if id in BUILTIN_ROLES then Failure(BuiltinImmutable)
                   else if id !in old(custom) then Failure(NotFound)
                   else Success(old(custom)[id])
      ensures custom == if r.Success? then old(custom) - {id} else old(custom)
    {
      hide BUILTIN_ROLES;
      if id in BUILTIN_ROLES {
        return Failure(BuiltinImmutable);
      }
      if id !in custom {
        return Failure(NotFound);
      }
      r := Success(custom[id]);
      custom := custom - {id};
    }
  }
}
