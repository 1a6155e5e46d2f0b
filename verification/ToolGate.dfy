/**
 The tool registry and its two doors: the ordinary one, which refuses tools that need
 approval, and the approved one, which the resume of a paused run takes.
 */
module ToolGate {

  /** A JSON argument payload: nothing at all, an object, or any other JSON value. */
  datatype Json = Absent | Object(text: string) | Other(text: string)

  datatype Risk = Read | Write | Consequential | Irreversible {
    predicate NeedsApproval() {
      Consequential? || Irreversible?
    }

    /** The tier's wire name, which is all the run loop sees of it. */
    function Name(): string {
      match this
      case Read => "read"
      case Write => "write"
      case Consequential => "consequential"
      case Irreversible => "irreversible"
    }
  }

  datatype Tool = Tool(name: string, risk: Risk, minRole: string)

  /** The registry's table by name. */
  type Registry = map<string, Tool>

  function RoleRank(role: string): nat {
    if role == "member" then 1 else if role == "admin" then 2 else if role == "owner" then 3 else 0
  }

  predicate Permits(minRole: string, role: string) {
    minRole == "" || RoleRank(role) >= RoleRank(minRole)
  }

  /** The tool is among the definitions this role is shown. */
  predicate Visible(reg: Registry, role: string, name: string) {
    name in reg && Permits(reg[name].minRole, role)
  }

  /** What one call of a door comes to: the tool ran, it was answered with a refusal, or the run is failed. */
  datatype Route = Reach | Refused | Fault

  /** `Reg.Execute`: unknown and forbidden tools are faults; malformed arguments are answered. */
  function Door(reg: Registry, role: string, name: string, args: Json): Route {
    if !Visible(reg, role, name) then Fault
    else if args.Other? then Refused
    else Reach
  }

  /** `runtimeTools.Execute`, the ordinary path. */
  function OrdinaryRoute(reg: Registry, role: string, name: string, args: Json): Route {
    if name !in reg then Fault
    else if reg[name].risk.NeedsApproval() then Refused
    else Door(reg, role, name, args)
  }

  /** `runtimeTools.Validate`. */
  predicate Valid(reg: Registry, role: string, name: string, args: Json) {
    Visible(reg, role, name) && args.Object?
  }

  /** `runtimeTools.ExecuteApproved`, the path only a granted approval takes. */
  function ApprovedRoute(reg: Registry, role: string, name: string, args: Json): Route {
    if !Valid(reg, role, name, args) then Fault else Door(reg, role, name, args)
  }

  /** The run loop's test on a tier's wire name, over the definitions the actor is shown. */
  predicate Parked(reg: Registry, role: string, name: string) {
    Visible(reg, role, name) &&
    (reg[name].risk.Name() == "consequential" || reg[name].risk.Name() == "irreversible")
  }

  /** Two tests of the gate, one on names and one on tiers, leave no call between them. */
  lemma GateAgrees(reg: Registry, role: string, name: string, args: Json)
    ensures !Parked(reg, role, name) ==>
              (OrdinaryRoute(reg, role, name, args).Reach? <==>
               Visible(reg, role, name) && !reg[name].risk.NeedsApproval() && !args.Other?)
    ensures Parked(reg, role, name) ==> OrdinaryRoute(reg, role, name, args).Refused?
    ensures name in reg && reg[name].risk.NeedsApproval() && !Visible(reg, role, name) ==>
              OrdinaryRoute(reg, role, name, args).Refused? && ApprovedRoute(reg, role, name, args).Fault?
  {
    if name in reg {
      var risk := reg[name].risk;
      assert risk.Name()[0] == (match risk case Read => 'r' case Write => 'w' case Consequential => 'c' case Irreversible => 'i');
      assert "consequential"[0] == 'c' && "irreversible"[0] == 'i';
    }
  }

  /** A tool that asks for no role is everybody's; one that asks for a role is that role's and every higher one's. */
  lemma RolesAreRanked(role: string)
    ensures Permits("", role)
    ensures Permits("member", role) <==> role == "member" || role == "admin" || role == "owner"
    ensures Permits("admin", role) <==> role == "admin" || role == "owner"
    ensures Permits("owner", role) <==> role == "owner"
  {
    assert |"member"| == 6 && |"admin"| == 5 && |"owner"| == 5;
    assert "admin"[0] == 'a' && "owner"[0] == 'o';
  }
}
