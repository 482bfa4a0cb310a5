/** The pure decisions of the login gate in server.js: which role ids are
    configured as allowed, whether a guild member's roles pass the gate, and
    which name the portal shows for a user. */
module Access {
  import opened Js

  /** `.map((s) => s.trim())` over the pieces of the configured list. */
  function TrimAll(parts: seq<string>): (r: seq<string>)
    ensures |r| == |parts|
    ensures forall i :: 0 <= i < |parts| ==> r[i] == Trim(parts[i])
  {
    seq(|parts|, i requires 0 <= i < |parts| => Trim(parts[i]))
  }

  /** `.filter(Boolean)` over strings: drops the empty ones. The contract
      states which strings are kept; the order they keep is not stated, as
      the list is only ever searched. */
  function DropEmpty(xs: seq<string>): (r: seq<string>)
    ensures forall x :: x in r <==> x in xs && x != ""
    ensures |r| <= |xs|
  {
    if xs == [] then []
    else if xs[0] == "" then DropEmpty(xs[1..])
    else [xs[0]] + DropEmpty(xs[1..])
  }

  /** The allowed role ids: the setting (an unset one reads as `""`) split on
      commas, each piece trimmed and the empty pieces dropped. */
  function AllowedRoleIds(setting: Option<string>): (ids: seq<string>)
    ensures ids == ParseRoleIds(if Truthy(setting) then setting.value else "")
    ensures !Truthy(setting) ==> ids == []
  {
    var raw := if Truthy(setting) then setting.value else "";
    assert !Truthy(setting) ==> Split(raw, ',') == [""];
    ParseRoleIds(raw)
  }

  function ParseRoleIds(raw: string): seq<string>
  {
    DropEmpty(TrimAll(Split(raw, ',')))
  }

  /** Each allowed id is the trimmed form of some comma-separated piece. */
  lemma RoleIdFromPiece(raw: string, x: string)
    requires x in ParseRoleIds(raw)
    ensures exists i :: 0 <= i < |Split(raw, ',')| && x == Trim(Split(raw, ',')[i])
  {
  }

  /** Every allowed role id is non-empty, carries no surrounding whitespace
      and holds no comma. */
  lemma RoleIdsClean(raw: string, x: string)
    requires x in ParseRoleIds(raw)
    ensures x != "" && Trim(x) == x && ',' !in x
  {
    RoleIdFromPiece(raw, x);
    var parts := Split(raw, ',');
    var i :| 0 <= i < |parts| && x == Trim(parts[i]);
    TrimIdempotent(parts[i]);
    TrimInside(parts[i]);
  }

  /** Every id of the configured list is non-empty, trimmed and comma-free. */
  lemma AllowedRoleIdsClean(setting: Option<string>)
    ensures forall x :: x in AllowedRoleIds(setting) ==> x != "" && Trim(x) == x && ',' !in x
  {
    var raw := if Truthy(setting) then setting.value else "";
    forall x | x in ParseRoleIds(raw)
      ensures x != "" && Trim(x) == x && ',' !in x
    {
      RoleIdsClean(raw, x);
    }
  }

  /** A string is an allowed id exactly when it is not empty and is the
      trimmed form of some comma-separated piece of the setting. */
  lemma RoleIdsMembership(raw: string, x: string)
    ensures x in ParseRoleIds(raw) <==> x != "" && exists p :: p in Split(raw, ',') && Trim(p) == x
  {
    var parts := Split(raw, ',');
    if x in ParseRoleIds(raw) {
      RoleIdFromPiece(raw, x);
      var i :| 0 <= i < |parts| && x == Trim(parts[i]);
      assert parts[i] in parts;
    }
    if x != "" && exists p :: p in parts && Trim(p) == x {
      var p :| p in parts && Trim(p) == x;
      PieceToRoleId(raw, p);
    }
  }

  /** Each comma-separated piece that is not blank gives an allowed id. */
  lemma PieceToRoleId(raw: string, p: string)
    requires p in Split(raw, ',') && Trim(p) != ""
    ensures Trim(p) in ParseRoleIds(raw)
  {
    var parts := Split(raw, ',');
    var i :| 0 <= i < |parts| && parts[i] == p;
    assert TrimAll(parts)[i] == Trim(p);
  }

  /** Every character of `Trim(s)` is a character of `s`. */
  lemma TrimInside(s: string)
    ensures forall c :: c in Trim(s) ==> c in s
  {
    var lo, hi :| 0 <= lo <= hi <= |s| && Trim(s) == s[lo..hi];
    assert forall c :: c in s[lo..hi] ==> c in s;
  }

  /** `member.roles || []`: a member without a `roles` field holds none. */
  function MemberRoles(roles: Option<seq<string>>): seq<string>
  {
    if roles.Some? then roles.value else []
  }

  /** `memberRoles.some((id) => allowed.includes(id))`, scanned left to right. */
  function SomeAllowed(memberRoles: seq<string>, allowed: seq<string>): (b: bool)
    ensures b <==> exists i :: 0 <= i < |memberRoles| && memberRoles[i] in allowed
  {
    if memberRoles == [] then false
    else if memberRoles[0] in allowed then true
    else
      var b := SomeAllowed(memberRoles[1..], allowed);
      assert forall i :: 1 <= i < |memberRoles| ==> memberRoles[i] == memberRoles[1..][i - 1];
      b
  }

  /** The role gate, used both when a session is issued and when it is
      re-checked: an empty allowed list lets every guild member through,
      otherwise the member must hold at least one allowed role. */
  function RoleGate(allowed: seq<string>, roles: Option<seq<string>>): (allow: bool)
    ensures allow <==> |allowed| == 0 || exists r :: r in MemberRoles(roles) && r in allowed
  {
    if |allowed| > 0 then SomeAllowed(MemberRoles(roles), allowed) else true
  }

  /** The gate on small cases: an empty allowed list admits a member with no
      roles; `[A, B]` admits a member holding `B` and refuses one holding
      only `C`, and one holding nothing. */
  lemma RoleGateExamples()
    ensures RoleGate([], None)
    ensures RoleGate(["A", "B"], Some(["B"]))
    ensures !RoleGate(["A", "B"], Some(["C"]))
    ensures !RoleGate(["A", "B"], Some([]))
    ensures !RoleGate(["A", "B"], None)
  {
    assert "B" in MemberRoles(Some(["B"]));
  }

  /** `nick || globalName || username`: the first of the member nickname and
      the global name that is present and non-empty, else the username. */
  function DisplayName(nick: Option<string>, globalName: Option<string>, username: string): (name: string)
    ensures Truthy(nick) ==> name == nick.value
    ensures !Truthy(nick) && Truthy(globalName) ==> name == globalName.value
    ensures !Truthy(nick) && !Truthy(globalName) ==> name == username
    ensures name != "" <==> Truthy(nick) || Truthy(globalName) || username != ""
  {
    if Truthy(nick) then nick.value
    else if Truthy(globalName) then globalName.value
    else username
  }

  /** The name recomputed at re-check from the stored `globalName` (kept as
      `global_name || null`) is the one the callback computed from the
      profile, when the nickname has not changed. */
  lemma DisplayNameFromStored(nick: Option<string>, globalName: Option<string>, username: string)
    ensures DisplayName(nick, OrNull(globalName), username) == DisplayName(nick, globalName, username)
  {
  }
}
