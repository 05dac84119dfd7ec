/** The invariants hold together in every state of every run. */
module ProtocolRuns {
  import opened Wrappers
  import opened Words
  import opened Protocol
  import opened ProtocolInvariant
  import opened Roles
  import opened Gates
  import opened Towers
  import opened Outcomes
  import ClientInvariant
  import ServerInvariant

  ghost predicate Good(cfg: Config, s: State) {
    Inv(cfg, s) && RoleInv(cfg, s) && GateInv(cfg, s) && TowerInv(cfg, s) && EndInv(cfg, s)
  }

  lemma InitIsGood(cfg: Config, clientTower: seq<byte>, serverTower: Option<seq<byte>>)
    requires cfg.Valid()
    ensures Good(cfg, Init(cfg, clientTower, serverTower))
  {
    InitKeepsInv(cfg, clientTower, serverTower);
    hide Inv;
  }

  lemma StepKeepsInv(cfg: Config, s: State, e: Event)
    requires cfg.Valid() && Inv(cfg, s)
    ensures Inv(cfg, Step(cfg, s, e))
  {
    hide Inv, ClientEvent, ServerEvent, DropLink, KillClient, KillServer, VoteOnClient, VoteOnServer;
    match e
    case ClientDoes(a) => ClientInvariant.ClientKeepsInv(cfg, s, a);
    case ServerDoes(a) => ServerInvariant.ServerKeepsInv(cfg, s, a);
    case LinkDrops(i, j) => LinkDropKeepsInv(cfg, s, i, j);
    case ClientDies => ClientDeathKeepsInv(cfg, s);
    case ServerDies => ServerDeathKeepsInv(cfg, s);
    case ClientVotes(tower) => VotesKeepInv(cfg, s, tower);
    case ServerVotes(tower) => VotesKeepInv(cfg, s, tower);
  }

  lemma EnvironmentKeepsGood(cfg: Config, s: State, tower: seq<byte>)
    requires cfg.Valid() && Good(cfg, s)
    ensures Good(cfg, KillClient(s)) && Good(cfg, KillServer(s))
    ensures Good(cfg, VoteOnClient(s, tower)) && Good(cfg, VoteOnServer(s, tower))
  {
    hide Inv, RoleInv, GateInv, TowerInv, EndInv, KillClient, KillServer, VoteOnClient, VoteOnServer;
    ClientDeathKeepsInv(cfg, s);
    ServerDeathKeepsInv(cfg, s);
    VotesKeepInv(cfg, s, tower);
    DeathKeepsRoles(cfg, s);
    VotesKeepRoles(cfg, s, tower);
    DeathAndVotesKeepGates(cfg, s, tower);
    DeathAndVotesKeepTower(cfg, s, tower);
    EnvironmentKeepsEnd(cfg, s, 0, 0, tower);
  }

  lemma StepKeepsGood(cfg: Config, s: State, e: Event)
    requires cfg.Valid() && Good(cfg, s)
    ensures Good(cfg, Step(cfg, s, e))
  {
    hide Inv, RoleInv, GateInv, TowerInv, EndInv, ClientEvent, ServerEvent, DropLink, KillClient, KillServer,
      VoteOnClient, VoteOnServer;
    StepKeepsInv(cfg, s, e);
    match e
    case ClientDoes(a) =>
      ClientActionKeepsRoles(cfg, s, a);
      ClientActionKeepsGates(cfg, s, a);
      ClientActionKeepsTower(cfg, s, a);
      ClientActionKeepsEnd(cfg, s, a);
    case ServerDoes(a) =>
      ServerActionKeepsRoles(cfg, s, a);
      ServerActionKeepsGates(cfg, s, a);
      ServerActionKeepsTower(cfg, s, a);
      ServerActionKeepsEnd(cfg, s, a);
    case LinkDrops(i, j) =>
      LinkDropKeepsRoles(cfg, s, i, j);
      LinkDropKeepsGates(cfg, s, i, j);
      LinkDropKeepsTower(cfg, s, i, j);
      EnvironmentKeepsEnd(cfg, s, i, j, []);
    case ClientDies => EnvironmentKeepsGood(cfg, s, []);
    case ServerDies => EnvironmentKeepsGood(cfg, s, []);
    case ClientVotes(tower) => EnvironmentKeepsGood(cfg, s, tower);
    case ServerVotes(tower) => EnvironmentKeepsGood(cfg, s, tower);
  }

  lemma {:induction false} RunKeepsGood(cfg: Config, s: State, events: seq<Event>)
    requires cfg.Valid() && Good(cfg, s)
    ensures Good(cfg, Run(cfg, s, events))
    decreases |events|
  {
    hide Good, Step;
    if events != [] {
      StepKeepsGood(cfg, s, events[0]);
      RunKeepsGood(cfg, Step(cfg, s, events[0]), events[1..]);
    }
  }

  lemma ReachableGood(cfg: Config, s: State)
    requires cfg.Valid() && Reachable(cfg, s)
    ensures Good(cfg, s)
  {
    hide Good, Run, Init;
    var clientTower, serverTower, events :| s == Run(cfg, Init(cfg, clientTower, serverTower), events);
    InitIsGood(cfg, clientTower, serverTower);
    RunKeepsGood(cfg, Init(cfg, clientTower, serverTower), events);
  }

  lemma GoodHasInv(cfg: Config, s: State)
    requires Good(cfg, s)
    ensures Inv(cfg, s) && GateInv(cfg, s) && RoleInv(cfg, s)
  {
    hide Inv, GateInv, RoleInv, TowerInv, EndInv;
  }
}
