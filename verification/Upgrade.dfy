/** The container upgrade: role replacement wrapped around a second transaction over image
    aliases and the release environment, each with its own rollback.

    Commands are nondeterministic: a failed one may or may not have taken effect, and a failed
    container replacement may leave its role in any state. Each contract below therefore holds
    for every pattern of failures. A signal counts as a failed forward step, or arrives late.
 */
module Upgrade {
  import opened Wrappers

  type Role = string
  type Image = string

  const ROLES: seq<Role> := ["firewall", "core", "edge"]

  /** The wanted roles in the order they are replaced. */
  function InOrder(wanted: set<Role>): (roles: seq<Role>)
    ensures Distinct(roles)
    ensures forall r :: r in roles <==> r in ROLES && r in wanted
  {
    (if ROLES[0] in wanted then [ROLES[0]] else []) +
    (if ROLES[1] in wanted then [ROLES[1]] else []) +
    (if ROLES[2] in wanted then [ROLES[2]] else [])
  }

  /** A role's container; the generation counts how often it was recreated. */
  datatype Container = Container(image: Image, running: bool, generation: nat)

  /** `namespace:role`, `namespace:role-version` and `namespace:rollback-role-image`. */
  datatype Reference = Stable(role: Role) | Versioned(role: Role, version: string) | Saved(role: Role, image: Image)

  /** One line of the release environment. */
  datatype EnvLine = Assign(key: string, value: string) | Other(text: string)

  type Env = seq<EnvLine>

  /** An error is `Clean` unless its message says that a rollback was incomplete. */
  datatype Result = Returned | Raised(incomplete: bool)

  /** A signal that no rollback covers. After the release selection has returned: still inside
      the guarded block, or while the signal handlers are being put back. After an error: before
      the rollback has begun to ignore signals, so that it is skipped. */
  datatype Signal = Never | Guarded | Unguarded | Doubled

  /** A planned alias with the image it named at preflight. */
  datatype Alias = Alias(reference: Reference, old_: Option<Image>, wanted: Image)

  /** What `ReleaseSelection.__init__` computed. */
  datatype Selection = Selection(aliases: seq<Alias>, original: Env, updated: Env)

  function Get(aliases: map<Reference, Image>, r: Reference): Option<Image> {
    if r in aliases then Some(aliases[r]) else None
  }

  ghost predicate Distinct<T>(s: seq<T>) {
    forall i, j :: 0 <= i < j < |s| ==> s[i] != s[j]
  }

  ghost predicate DistinctReferences(s: seq<Alias>) {
    forall i, j :: 0 <= i < j < |s| ==> s[i].reference != s[j].reference
  }

  /** The selection was computed from these aliases. */
  ghost predicate Recorded(sel: Selection, aliases: map<Reference, Image>) {
    && DistinctReferences(sel.aliases)
    && forall i :: 0 <= i < |sel.aliases| ==> sel.aliases[i].old_ == Get(aliases, sel.aliases[i].reference)
  }

  // -----------------------------------------------------------------------------
  // The release environment
  // -----------------------------------------------------------------------------

  /** The value a shell or Compose reads: the last assignment wins. */
  function Lookup(env: Env, key: string): Option<string> {
    if env == [] then None
    else
      var last := env[|env| - 1];
      if last.Assign? && last.key == key then Some(last.value) else Lookup(env[..|env| - 1], key)
  }

  function Without(env: Env, keys: set<string>): Env {
    if env == [] then []
    else
      var last := env[|env| - 1];
      Without(env[..|env| - 1], keys) + (if last.Assign? && last.key in keys then [] else [last])
  }

  /** Drop the assignments being replaced and append the new ones in order. */
  function Replaced(env: Env, changes: seq<(string, string)>): Env {
    Without(env, set c | c in changes :: c.0) + seq(|changes|, i requires 0 <= i < |changes| => Assign(changes[i].0, changes[i].1))
  }

  lemma {:induction false} WithoutLookup(env: Env, keys: set<string>, key: string)
    ensures Lookup(Without(env, keys), key) == if key in keys then None else Lookup(env, key)
  {
    if env != [] {
      var init := env[..|env| - 1];
      var last := env[|env| - 1];
      WithoutLookup(init, keys, key);
      if !(last.Assign? && last.key in keys) {
        assert (Without(init, keys) + [last])[..|Without(init, keys)|] == Without(init, keys);
      } else {
        assert Without(env, keys) == Without(init, keys);
      }
    }
  }

  /** The last change of a key, if there is one. */
  function Change(changes: seq<(string, string)>, key: string): Option<string> {
    if changes == [] then None
    else if changes[|changes| - 1].0 == key then Some(changes[|changes| - 1].1)
    else Change(changes[..|changes| - 1], key)
  }

  lemma {:induction false} AppendedLookup(env: Env, changes: seq<(string, string)>, key: string)
    ensures Lookup(env + seq(|changes|, i requires 0 <= i < |changes| => Assign(changes[i].0, changes[i].1)), key) ==
      if Change(changes, key).Some? then Change(changes, key) else Lookup(env, key)
  {
    var lines := seq(|changes|, i requires 0 <= i < |changes| => Assign(changes[i].0, changes[i].1));
    if changes == [] {
      assert env + lines == env;
    } else {
      var init := changes[..|changes| - 1];
      AppendedLookup(env, init, key);
      assert (env + lines)[..|env + lines| - 1] == env + seq(|init|, i requires 0 <= i < |init| => Assign(init[i].0, init[i].1));
    }
  }

  lemma {:induction false} ChangeMember(changes: seq<(string, string)>, key: string)
    ensures Change(changes, key).Some? <==> exists c :: c in changes && c.0 == key
  {
    if changes != [] {
      ChangeMember(changes[..|changes| - 1], key);
      assert changes == changes[..|changes| - 1] + [changes[|changes| - 1]];
    }
  }

  /** The updated environment selects the new values and leaves every other variable alone. */
  lemma ReplacedSelects(env: Env, changes: seq<(string, string)>, key: string)
    ensures Lookup(Replaced(env, changes), key) ==
      if Change(changes, key).Some? then Change(changes, key) else Lookup(env, key)
  {
    var keys := set c | c in changes :: c.0;
    WithoutLookup(env, keys, key);
    AppendedLookup(Without(env, keys), changes, key);
    ChangeMember(changes, key);
  }

  // -----------------------------------------------------------------------------
  // The deployment
  // -----------------------------------------------------------------------------

  /** One command: whether it took effect and whether it succeeded. */
  method Attempt() returns (lands: bool, ok: bool)
    ensures ok ==> lands
  {
    lands, ok := *, *;
    if ok {
      lands := true;
    }
  }

  /** The two alias tables differ at most in the listed references. */
  ghost predicate AgreeBut(a: map<Reference, Image>, b: map<Reference, Image>, listed: seq<Alias>) {
    forall r :: (forall c :: c in listed ==> c.reference != r) ==> Get(a, r) == Get(b, r)
  }

  lemma Extensional(a: map<Reference, Image>, b: map<Reference, Image>)
    requires forall r :: Get(a, r) == Get(b, r)
    ensures a == b
  {
    assert forall r :: r in a <==> Get(a, r).Some?;
    assert forall r :: r in b <==> Get(b, r).Some?;
  }

  predicate Compatible(aliases: map<Reference, Image>, r: Reference, expected: Image) {
    r in aliases ==> aliases[r] == expected
  }

  /** Two immutable aliases and the stable one. */
  function RoleAliases(aliases: map<Reference, Image>, role: Role, image: Image, previous: Image, version: string): seq<Alias> {
    [Alias(Versioned(role, version), Get(aliases, Versioned(role, version)), image),
     Alias(Saved(role, previous), Get(aliases, Saved(role, previous)), previous),
     Alias(Stable(role), Get(aliases, Stable(role)), image)]
  }

  function Images(containers: map<Role, Container>): map<Role, Image> {
    map r | r in containers :: containers[r].image
  }

  function Planned(aliases: map<Reference, Image>, roles: seq<Role>, images: map<Role, Image>,
                   current: map<Role, Image>, version: string): seq<Alias>
    requires forall r :: r in roles ==> r in images && r in current
  {
    if roles == [] then []
    else
      var last := roles[|roles| - 1];
      Planned(aliases, roles[..|roles| - 1], images, current, version) +
      RoleAliases(aliases, last, images[last], current[last], version)
  }

  lemma {:induction false} PlannedDistinct(aliases: map<Reference, Image>, roles: seq<Role>, images: map<Role, Image>,
                                           current: map<Role, Image>, version: string)
    requires forall r :: r in roles ==> r in images && r in current
    requires Distinct(roles)
    ensures var p := Planned(aliases, roles, images, current, version);
      && DistinctReferences(p)
      && (forall i :: 0 <= i < |p| ==> p[i].old_ == Get(aliases, p[i].reference) && p[i].reference.role in roles)
  {
    if roles != [] {
      var init, last := roles[..|roles| - 1], roles[|roles| - 1];
      PlannedDistinct(aliases, init, images, current, version);
      assert last !in init && roles == init + [last];
    }
  }

  lemma {:induction false} PlannedCovers(aliases: map<Reference, Image>, roles: seq<Role>, images: map<Role, Image>,
                                         current: map<Role, Image>, version: string, role: Role)
    requires forall r :: r in roles ==> r in images && r in current
    requires role in roles
    ensures Plans(Planned(aliases, roles, images, current, version), role, images[role], current[role], version)
  {
    var init, last := roles[..|roles| - 1], roles[|roles| - 1];
    var before := Planned(aliases, init, images, current, version);
    var added := RoleAliases(aliases, last, images[last], current[last], version);
    if role == last {
      assert added[0] in before + added && added[1] in before + added && added[2] in before + added;
    } else {
      assert roles == init + [last];
      PlannedCovers(aliases, init, images, current, version, role);
      PlansMore(before, added, role, images[role], current[role], version);
    }
  }

  lemma PlansMore(before: seq<Alias>, added: seq<Alias>, role: Role, image: Image, previous: Image, version: string)
    requires Plans(before, role, image, previous, version)
    ensures Plans(before + added, role, image, previous, version)
  {
    assert forall a :: a in before ==> a in before + added;
  }

  /** The variables a release sets: the version with core, the revision with every role. */
  function Changes(roles: seq<Role>, version: string, revision: string): seq<(string, string)> {
    (if "core" in roles then [("PORTHUB_VERSION", version)] else []) +
    (if forall r :: r in ROLES ==> r in roles then [("PORTHUB_SOURCE_REVISION", revision)] else [])
  }

  /** The selection keeps the previous image under its rollback alias and moves the others. */
  ghost predicate Plans(planned: seq<Alias>, role: Role, image: Image, previous: Image, version: string) {
    && (exists a :: a in planned && a.reference == Stable(role) && a.wanted == image)
    && (exists a :: a in planned && a.reference == Versioned(role, version) && a.wanted == image)
    && (exists a :: a in planned && a.reference == Saved(role, previous) && a.wanted == previous)
  }

  class Deployment {
    var containers: map<Role, Container>
    var aliases: map<Reference, Image>
    var env: Env

    constructor (containers: map<Role, Container>, aliases: map<Reference, Image>, env: Env)
      ensures this.containers == containers && this.aliases == aliases && this.env == env
    {
      this.containers, this.aliases, this.env := containers, aliases, env;
    }

    // --- Commands -------------------------------------------------------------------

    method Check() returns (ok: bool)
    {
      var _, good := Attempt();
      ok := good;
    }

    /** `docker compose up --force-recreate --wait` for one role. */
    method Up(role: Role, image: Image) returns (ok: bool)
      requires role in containers
      modifies this`containers
      ensures containers.Keys == old(containers).Keys
      ensures forall r :: r in containers && r != role ==> containers[r] == old(containers)[r]
      ensures ok ==> containers[role].image == image && containers[role].running
    {
      var lands, good := Attempt();
      ok := good;
      if ok {
        containers := containers[role := Container(image, true, containers[role].generation + 1)];
      } else if lands {
        var broken: Container := *;
        containers := containers[role := broken];
      }
    }

    /** The verified backup of core stops its container. */
    method BeforeRole(role: Role) returns (ok: bool)
      requires role in containers
      modifies this`containers
      ensures containers.Keys == old(containers).Keys
      ensures forall r :: r in containers && r != role ==> containers[r] == old(containers)[r]
    {
      ok := true;
      if role == "core" {
        var lands, good := Attempt();
        ok := good;
        if lands {
          containers := containers[role := containers[role].(running := false)];
        }
      }
    }

    method Tag(image: Image, reference: Reference) returns (ok: bool)
      modifies this`aliases
      ensures aliases == old(aliases) || aliases == old(aliases)[reference := image]
      ensures ok ==> aliases == old(aliases)[reference := image]
    {
      var lands, good := Attempt();
      ok := good;
      if lands {
        aliases := aliases[reference := image];
      }
    }

    /** `docker image rm` fails for a reference that does not exist. */
    method Untag(reference: Reference) returns (ok: bool)
      modifies this`aliases
      ensures aliases == old(aliases) || aliases == old(aliases) - {reference}
      ensures ok ==> reference in old(aliases) && aliases == old(aliases) - {reference}
    {
      if reference !in aliases {
        return false;
      }
      var lands, good := Attempt();
      ok := good;
      if lands {
        aliases := aliases - {reference};
      }
    }

    method ReplaceEnv(payload: Env) returns (ok: bool)
      modifies this`env
      ensures env == old(env) || env == payload
      ensures ok ==> env == payload
    {
      var lands, good := Attempt();
      ok := good;
      if lands {
        env := payload;
      }
    }

    // --- ReleaseSelection -----------------------------------------------------------

    /** Every planned alias names its image and the environment is the updated one. */
    ghost predicate Selected(sel: Selection)
      reads this
    {
      && env == sel.updated
      && forall i :: 0 <= i < |sel.aliases| ==>
           Get(aliases, sel.aliases[i].reference) == Some(sel.aliases[i].wanted)
    }

    /** `__init__`: an immutable alias that already names something else refuses the upgrade. */
    method Preflight(roles: seq<Role>, images: map<Role, Image>, version: string, revision: string)
        returns (sel: Option<Selection>)
      requires Distinct(roles)
      requires forall r :: r in roles ==> r in images && r in containers
      ensures sel.Some? <==> forall r :: r in roles ==>
        Compatible(aliases, Versioned(r, version), images[r]) &&
        Compatible(aliases, Saved(r, containers[r].image), containers[r].image)
      ensures sel.Some? ==>
        && Recorded(sel.value, aliases) && sel.value.original == env
        && (forall r :: r in roles ==> Plans(sel.value.aliases, r, images[r], containers[r].image, version))
        && sel.value.updated == Replaced(env, Changes(roles, version, revision))
    {
      var planned: seq<Alias> := [];
      for k := 0 to |roles|
        invariant forall r :: r in roles[..k] ==>
          Compatible(aliases, Versioned(r, version), images[r]) &&
          Compatible(aliases, Saved(r, containers[r].image), containers[r].image)
        invariant planned == Planned(aliases, roles[..k], images, Images(containers), version)
      {
        var role := roles[k];
        var previous := containers[role].image;
        if !Compatible(aliases, Versioned(role, version), images[role]) || !Compatible(aliases, Saved(role, previous), previous) {
          return None;
        }
        planned := planned + RoleAliases(aliases, role, images[role], previous, version);
        assert roles[..k + 1] == roles[..k] + [role];
      }
      assert roles[..|roles|] == roles;
      PlannedDistinct(aliases, roles, images, Images(containers), version);
      forall r | r in roles
        ensures Plans(planned, r, images[r], containers[r].image, version) {
        PlannedCovers(aliases, roles, images, Images(containers), version, r);
      }
      sel := Some(Selection(planned, env, Replaced(env, Changes(roles, version, revision))));
    }

    /** One alias back to what it named at preflight. */
    method RestoreAlias(c: Alias) returns (ok: bool)
      modifies this`aliases
      ensures forall r :: r != c.reference ==> Get(aliases, r) == Get(old(aliases), r)
      ensures ok ==> Get(aliases, c.reference) == c.old_
      ensures c.old_.None? && c.reference !in old(aliases) ==> !ok
    {
      if c.old_.None? {
        ok := Untag(c.reference);
      } else {
        ok := Tag(c.old_.value, c.reference);
      }
    }

    /** Put the environment and every changed alias back, last first; each failure is counted.
        An alias whose creation never landed cannot be removed and so counts as one. */
    method Unselect(sel: Selection, changed: seq<Alias>, ghost origin: map<Reference, Image>) returns (failures: nat)
      requires DistinctReferences(changed)
      requires forall c :: c in changed ==> c.old_ == Get(origin, c.reference)
      requires AgreeBut(aliases, origin, changed)
      modifies this`aliases, this`env
      ensures failures == 0 ==> aliases == origin && env == sel.original
      ensures AgreeBut(aliases, origin, changed)
      ensures forall i :: 0 <= i < |changed| && changed[i].old_.None? && changed[i].reference !in old(aliases) ==> failures > 0
    {
      failures := 0;
      var ok := ReplaceEnv(sel.original);
      if !ok {
        failures := failures + 1;
      }
      var j := |changed|;
      while j > 0
        invariant 0 <= j <= |changed|
        invariant failures == 0 ==> env == sel.original
        invariant failures == 0 ==> forall i :: j <= i < |changed| ==> Get(aliases, changed[i].reference) == changed[i].old_
        invariant AgreeBut(aliases, origin, changed)
        invariant forall i :: 0 <= i < j ==> Get(aliases, changed[i].reference) == Get(old(aliases), changed[i].reference)
        invariant forall i :: j <= i < |changed| && changed[i].old_.None? && changed[i].reference !in old(aliases) ==> failures > 0
      {
        j := j - 1;
        assert changed[j] in changed;
        ok := RestoreAlias(changed[j]);
        if !ok {
          failures := failures + 1;
        }
      }
      if failures == 0 {
        Extensional(aliases, origin);
      }
    }

    /** `apply`: on success everything is selected; after an error without an incomplete
        rollback, aliases and environment are the originals. An alias whose creation did not
        land makes the rollback incomplete, because it cannot be removed. */
    method ApplySelection(sel: Selection) returns (result: Result)
      requires Recorded(sel, aliases)
      modifies this`aliases, this`env
      ensures result.Returned? ==> Selected(sel)
      ensures result == Raised(false) ==> aliases == old(aliases) && env == old(env)
      ensures AgreeBut(aliases, old(aliases), sel.aliases)
    {
      var ok := Check();
      if env != sel.original || !ok {
        return Raised(false);
      }
      var changed: seq<Alias> := [];
      ok := true;
      var k := 0;
      while ok && k < |sel.aliases|
        invariant 0 <= k <= |sel.aliases| && env == sel.original
        invariant DistinctReferences(changed) && forall c :: c in changed ==> c in sel.aliases[..k]
        invariant AgreeBut(aliases, old(aliases), changed)
        invariant ok ==> forall i :: 0 <= i < k ==> Get(aliases, sel.aliases[i].reference) == Some(sel.aliases[i].wanted)
        invariant forall i :: k <= i < |sel.aliases| ==> sel.aliases[i].old_ == Get(aliases, sel.aliases[i].reference) || !ok
      {
        var a := sel.aliases[k];
        if a.old_ != Some(a.wanted) {
          forall c | c in changed ensures c.reference != a.reference {
            var i :| 0 <= i < k && sel.aliases[i] == c;
          }
          changed := changed + [a];
          ok := Tag(a.wanted, a.reference);
        }
        k := k + 1;
      }
      if ok {
        ok := ReplaceEnv(sel.updated);
      }
      if ok {
        ok := Check();
      }
      if ok {
        return Returned;
      }
      var failures := Unselect(sel, changed, old(aliases));
      result := Raised(failures > 0);
    }

    // --- activate -------------------------------------------------------------------

    /** Every listed role runs the given image. */
    ghost predicate Runs(roles: seq<Role>, images: map<Role, Image>)
      requires forall r :: r in roles ==> r in containers && r in images
      reads this
    {
      forall r :: r in roles ==> containers[r].image == images[r] && containers[r].running
    }

    /** Restore every attempted role, then check what must not have changed. */
    method Deactivate(attempted: seq<Role>, previous: map<Role, Image>) returns (failures: nat)
      requires forall r :: r in attempted ==> r in containers && r in previous
      modifies this`containers
      ensures containers.Keys == old(containers).Keys
      ensures forall r :: r in containers && r !in attempted ==> containers[r] == old(containers)[r]
      ensures failures == 0 ==> Runs(attempted, previous)
    {
      failures := 0;
      for k := 0 to |attempted|
        invariant containers.Keys == old(containers).Keys
        invariant forall r :: r in containers && r !in attempted ==> containers[r] == old(containers)[r]
        invariant failures == 0 ==> forall r :: r in attempted[..k] ==> containers[r].image == previous[r] && containers[r].running
      {
        var ok := Up(attempted[k], previous[attempted[k]]);
        if !ok {
          failures := failures + 1;
        }
      }
      assert attempted[..|attempted|] == attempted;
      var others := Check();
      if !others {
        failures := failures + 1;
      }
      var routes := Check();
      if !routes {
        failures := failures + 1;
      }
    }

    /** Replace the roles in order. A role counts as attempted before anything touches it. */
    method Replace(roles: seq<Role>, candidate: map<Role, Image>) returns (ok: bool, attempted: nat)
      requires Distinct(roles)
      requires forall r :: r in roles ==> r in containers && r in candidate
      modifies this`containers
      ensures attempted <= |roles| && containers.Keys == old(containers).Keys
      ensures forall r :: r in containers && r !in roles[..attempted] ==> containers[r] == old(containers)[r]
      ensures ok ==> attempted == |roles| && Runs(roles, candidate)
    {
      attempted := 0;
      while attempted < |roles|
        invariant 0 <= attempted <= |roles| && containers.Keys == old(containers).Keys
        invariant forall r :: r in containers && r !in roles[..attempted] ==> containers[r] == old(containers)[r]
        invariant forall r :: r in roles[..attempted] ==> containers[r].image == candidate[r] && containers[r].running
      {
        var interrupted: bool := *;
        if interrupted {
          return false, attempted;
        }
        var role := roles[attempted];
        assert role !in roles[..attempted] && roles[..attempted + 1] == roles[..attempted] + [role];
        attempted := attempted + 1;
        ok := BeforeRole(role);
        if ok {
          ok := Up(role, candidate[role]);
        }
        if !ok {
          return;
        }
      }
      assert roles[..|roles|] == roles;
      ok := true;
    }

    /** `activate` with the release selection as its last step. A normal return means that
        every selected role, alias and variable chooses the candidate. An error without an
        incomplete rollback means that attempted roles run their previous images, unattempted
        roles were never touched, and aliases and environment are the originals, exactly when
        no signal came late: a late one takes the roles back under the new selection, or
        reports an error although nothing is taken back, or skips the rollback of an error. */
    method Activate(roles: seq<Role>, candidate: map<Role, Image>, previous: map<Role, Image>, sel: Selection)
        returns (result: Result, attempted: nat, late: Signal)
      requires Distinct(roles)
      requires forall r :: r in roles ==> r in containers && r in candidate && r in previous
      requires Recorded(sel, aliases)
      modifies this
      ensures attempted <= |roles| && containers.Keys == old(containers).Keys
      ensures forall r :: r in containers && r !in roles[..attempted] ==> containers[r] == old(containers)[r]
      ensures AgreeBut(aliases, old(aliases), sel.aliases)
      ensures result.Returned? ==> late.Never? && Runs(roles, candidate) && Selected(sel)
      ensures result == Raised(false) && late.Never? ==>
        Runs(roles[..attempted], previous) && aliases == old(aliases) && env == old(env)
      ensures late.Guarded? || late.Unguarded? ==> attempted == |roles| && Selected(sel)
      ensures result == Raised(false) && late.Guarded? ==> Runs(roles, previous)
      ensures late.Doubled? ==> result == Raised(false)
      ensures late.Unguarded? ==> result == Raised(false) && Runs(roles, candidate)
    {
      var ok;
      late := Never;
      ok, attempted := Replace(roles, candidate);
      if ok {
        ok := Check();
      }
      if ok {
        ok := Check();
      }
      result := Raised(false);
      if ok {
        result := ApplySelection(sel);
      }
      if result.Returned? {
        var when: Signal := *;
        match when {
          case Unguarded => return Raised(false), attempted, Unguarded;
          case Guarded => late := Guarded;
          case _ => return;
        }
      }
      var again: bool := *;
      if again {
        return Raised(false), attempted, Doubled;
      }
      var failures := Deactivate(roles[..attempted], previous);
      result := Raised(failures > 0 || result == Raised(true));
      assert attempted == |roles| ==> roles[..attempted] == roles;
    }

    /** `perform`: the images running now are the ones to go back to. After any error that does
        not report an incomplete rollback, and without a late signal, every role runs the image
        it ran before. */
    method Perform(wanted: set<Role>, candidate: map<Role, Image>, version: string, revision: string)
        returns (result: Result, attempted: nat, late: Signal)
      modifies this
      ensures containers.Keys == old(containers).Keys && attempted <= |InOrder(wanted)|
      ensures forall r :: r in containers && r !in InOrder(wanted)[..attempted] ==> containers[r] == old(containers)[r]
      ensures result.Returned? ==> late.Never?
      ensures result.Returned? || late.Guarded? || late.Unguarded? ==> forall r :: r in InOrder(wanted) ==>
        && r in containers && r in candidate
        && Get(aliases, Stable(r)) == Get(aliases, Versioned(r, version)) == Some(candidate[r])
        && Get(aliases, Saved(r, old(containers)[r].image)) == Some(old(containers)[r].image)
      ensures result.Returned? || late.Guarded? || late.Unguarded? ==> env == Replaced(old(env), Changes(InOrder(wanted), version, revision))
      ensures result.Returned? || late.Unguarded? ==> forall r :: r in InOrder(wanted) ==>
        r in containers && r in candidate && containers[r].image == candidate[r] && containers[r].running
      ensures result == Raised(false) && (late.Never? || late.Guarded?) ==>
        forall r :: r in containers ==>
          containers[r].image == old(containers)[r].image && containers[r].running == old(containers)[r].running
      ensures result == Raised(false) && late.Never? ==> aliases == old(aliases) && env == old(env)
    {
      late := Never;
      var roles := InOrder(wanted);
      if exists r :: r in roles && (r !in containers || !containers[r].running || r !in candidate) {
        return Raised(false), 0, late;
      }
      var sel := Preflight(roles, candidate, version, revision);
      if sel.None? {
        return Raised(false), 0, late;
      }
      result, attempted, late := Activate(roles, candidate, Images(containers), sel.value);
      assert forall r :: r in roles[..attempted] ==> r in roles;
      assert attempted == |roles| ==> roles[..attempted] == roles;
    }
  }
}
