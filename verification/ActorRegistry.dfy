/**
 The registries of ActorSystem: actor names, links between actors, and the route of a message
 to a remote node. Each public operation of the source runs under its lock and is one method.
 */
module ActorRegistry {
  import opened Bytes
  import opened Wrappers
  import opened Messages
  import opened ClusterCodec

  type Name = bytes

  // --------------------------------------------------------------------------------------
  // Names
  // --------------------------------------------------------------------------------------

  datatype NameTable = NameTable(toActor: map<Name, ActorId>, toName: map<ActorId, Name>)

  function Bind(t: NameTable, name: Name, id: ActorId): NameTable {
    var kept := if name in t.toActor then t.toName - {t.toActor[name]} else t.toName;
    NameTable(t.toActor[name := id], kept[id := name])
  }

  function Unbind(t: NameTable, name: Name): NameTable {
    if name in t.toActor then NameTable(t.toActor - {name}, t.toName - {t.toActor[name]}) else t
  }

  function Forget(t: NameTable, id: ActorId): NameTable {
    if id in t.toName then NameTable(t.toActor - {t.toName[id]}, t.toName - {id}) else t
  }

  // Zero when the name is unknown.
  function Find(t: NameTable, name: Name): ActorId {
    if name in t.toActor then t.toActor[name] else 0
  }

  // Empty when the actor has no name.
  function NameOf(t: NameTable, id: ActorId): Name {
    if id in t.toName then t.toName[id] else []
  }

  datatype NameOp =
    | RegisterOp(name: Name, id: ActorId)
    | UnregisterOp(name: Name)
    | ForgetOp(id: ActorId)

  function ApplyName(t: NameTable, op: NameOp): NameTable {
    match op
    case RegisterOp(name, id) => Bind(t, name, id)
    case UnregisterOp(name) => Unbind(t, name)
    case ForgetOp(id) => Forget(t, id)
  }

  // The table after a run of operations from the empty table.
  function NamesAfter(ops: seq<NameOp>): NameTable {
    if ops == [] then NameTable(map[], map[]) else ApplyName(NamesAfter(ops[..|ops| - 1]), ops[|ops| - 1])
  }

  // The name found for an actor leads back to it.
  ghost predicate NamesAgree(t: NameTable) {
    forall id :: id in t.toName ==> t.toName[id] in t.toActor && t.toActor[t.toName[id]] == id
  }

  // The two maps are inverse to each other.
  ghost predicate NamesInverse(t: NameTable) {
    && NamesAgree(t)
    && forall n :: n in t.toActor ==> t.toActor[n] in t.toName && t.toName[t.toActor[n]] == n
  }

  lemma ApplyKeepsAgreement(t: NameTable, op: NameOp)
    requires NamesAgree(t)
    ensures NamesAgree(ApplyName(t, op))
  {
  }

  // What the lookups find after each operation. A name that is registered anew leaves its former
  // actor without one.
  lemma LookupsAfter(t: NameTable, op: NameOp)
    ensures forall n :: Find(ApplyName(t, op), n) ==
              match op
              case RegisterOp(name, id) => if n == name then id else Find(t, n)
              case UnregisterOp(name) => if n == name then 0 else Find(t, n)
              case ForgetOp(id) => if id in t.toName && t.toName[id] == n then 0 else Find(t, n)
    ensures forall x :: NameOf(ApplyName(t, op), x) ==
              match op
              case RegisterOp(name, id) =>
                if x == id then name else if name in t.toActor && t.toActor[name] == x then [] else NameOf(t, x)
              case UnregisterOp(name) => if name in t.toActor && t.toActor[name] == x then [] else NameOf(t, x)
              case ForgetOp(id) => if x == id then [] else NameOf(t, x)
  {
  }

  // In every run, looking up the registered name of an actor finds that actor.
  lemma {:induction false} NamesAlwaysAgree(ops: seq<NameOp>)
    ensures NamesAgree(NamesAfter(ops))
  {
    if ops != [] {
      NamesAlwaysAgree(ops[..|ops| - 1]);
      ApplyKeepsAgreement(NamesAfter(ops[..|ops| - 1]), ops[|ops| - 1]);
    }
  }

  // Registering a name keeps the maps inverse exactly when the actor had no other name.
  lemma BindKeepsInverse(t: NameTable, name: Name, id: ActorId)
    requires NamesInverse(t)
    ensures NamesInverse(Bind(t, name, id)) <==> (id !in t.toName || t.toName[id] == name)
  {
    var u := Bind(t, name, id);
    if id in t.toName && t.toName[id] != name {
      var other := t.toName[id];
      assert other in u.toActor && u.toActor[other] == id && u.toName[id] == name;
    }
  }

  lemma UnbindKeepsInverse(t: NameTable, op: NameOp)
    requires NamesInverse(t) && !op.RegisterOp?
    ensures NamesInverse(ApplyName(t, op))
  {
  }

  // No actor is registered under two names.
  ghost predicate OneNameEach(ops: seq<NameOp>) {
    forall i, j | 0 <= i < |ops| && 0 <= j < |ops| && ops[i].RegisterOp? && ops[j].RegisterOp? ::
      ops[i].id == ops[j].id ==> ops[i].name == ops[j].name
  }

  lemma {:induction false} NamesWereRegistered(ops: seq<NameOp>, id: ActorId)
    requires id in NamesAfter(ops).toName
    ensures exists i :: 0 <= i < |ops| && ops[i] == RegisterOp(NamesAfter(ops).toName[id], id)
  {
    var before := ops[..|ops| - 1];
    var last := ops[|ops| - 1];
    if last.RegisterOp? && last.id == id {
    } else {
      NamesWereRegistered(before, id);
      var i :| 0 <= i < |before| && before[i] == RegisterOp(NamesAfter(before).toName[id], id);
      assert ops[i] == before[i];
    }
  }

  // When no actor ever takes two names, the maps are inverse throughout the run.
  lemma {:induction false} NamesStayInverse(ops: seq<NameOp>)
    requires OneNameEach(ops)
    ensures NamesInverse(NamesAfter(ops))
  {
    if ops != [] {
      var before := ops[..|ops| - 1];
      var last := ops[|ops| - 1];
      NamesStayInverse(before);
      var t := NamesAfter(before);
      if last.RegisterOp? {
        BindKeepsInverse(t, last.name, last.id);
        if last.id in t.toName {
          NamesWereRegistered(before, last.id);
        }
      } else {
        UnbindKeepsInverse(t, last);
      }
    }
  }

  // An actor that took a second name leaves the first one behind when it is unregistered.
  lemma SecondNameLeavesDangling(first: Name, second: Name, id: ActorId)
    requires first != second
    ensures var t := NamesAfter([RegisterOp(first, id), RegisterOp(second, id), ForgetOp(id)]);
            Find(t, first) == id && id !in t.toName
  {
    var one := [RegisterOp(first, id)];
    var two := one + [RegisterOp(second, id)];
    var three := two + [ForgetOp(id)];
    assert three == [RegisterOp(first, id), RegisterOp(second, id), ForgetOp(id)];
    assert one[..0] == [] && two[..1] == one && three[..2] == two;
    assert NamesAfter(one) == Bind(NamesAfter([]), first, id);
    assert NamesAfter(two) == Bind(NamesAfter(one), second, id);
    assert NamesAfter(three) == Forget(NamesAfter(two), id);
  }

  // --------------------------------------------------------------------------------------
  // Links
  // --------------------------------------------------------------------------------------

  function WatchersOf(links: map<ActorId, set<ActorId>>, target: ActorId): set<ActorId> {
    if target in links then links[target] else {}
  }

  // Only registered actors are linked, and no actor to itself.
  ghost predicate LinksRegistered(actors: set<ActorId>, links: map<ActorId, set<ActorId>>) {
    forall t :: t in links ==> t in actors && links[t] <= actors - {t}
  }

  // The registered actors, and who watches whom.
  datatype LinkTable = LinkTable(actors: set<ActorId>, links: map<ActorId, set<ActorId>>)

  predicate Linkable(t: LinkTable, watcher: ActorId, target: ActorId) {
    watcher != target && watcher in t.actors && target in t.actors
  }

  function Insert(t: LinkTable, watcher: ActorId, target: ActorId): LinkTable {
    t.(links := t.links[target := WatchersOf(t.links, target) + {watcher}])
  }

  // LinkActor, as one operation: the registration test, then the insertion.
  function Link(t: LinkTable, watcher: ActorId, target: ActorId): LinkTable {
    if Linkable(t, watcher, target) then Insert(t, watcher, target) else t
  }

  // The last watcher takes the entry with it.
  function Unlink(t: LinkTable, watcher: ActorId, target: ActorId): LinkTable {
    var left := WatchersOf(t.links, target) - {watcher};
    if target !in t.links then t
    else if left == {} then t.(links := t.links - {target})
    else t.(links := t.links[target := left])
  }

  function Enter(t: LinkTable, id: ActorId): LinkTable {
    t.(actors := t.actors + {id})
  }

  function Leave(t: LinkTable, id: ActorId): LinkTable {
    LinkTable(t.actors - {id}, map u | u in t.links && u != id :: t.links[u] - {id})
  }

  // The parts of UnregisterActor as far as links are concerned, each under a lock of its own:
  // the watchers to notify are taken out, then the actor everywhere in the link map, and last
  // the actor itself.
  function TakeOut(t: LinkTable, id: ActorId): LinkTable {
    t.(links := t.links - {id})
  }

  function Cut(t: LinkTable, id: ActorId): LinkTable {
    t.(links := map u | u in t.links && u != id :: t.links[u] - {id})
  }

  function Drop(t: LinkTable, id: ActorId): LinkTable {
    t.(actors := t.actors - {id})
  }

  // InsertOp is the second half of a LinkActor that tested the registration earlier.
  datatype LinkOp =
    | EnterOp(id: ActorId)
    | LeaveOp(id: ActorId)
    | LinkOp(watcher: ActorId, target: ActorId)
    | UnlinkOp(watcher: ActorId, target: ActorId)
    | InsertOp(watcher: ActorId, target: ActorId)
    | TakeOutOp(id: ActorId)
    | CutOp(id: ActorId)
    | DropOp(id: ActorId)

  function ApplyLink(t: LinkTable, op: LinkOp): LinkTable {
    match op
    case EnterOp(id) => Enter(t, id)
    case LeaveOp(id) => Leave(t, id)
    case LinkOp(w, x) => Link(t, w, x)
    case UnlinkOp(w, x) => Unlink(t, w, x)
    case InsertOp(w, x) => Insert(t, w, x)
    case TakeOutOp(id) => TakeOut(t, id)
    case CutOp(id) => Cut(t, id)
    case DropOp(id) => Drop(t, id)
  }

  function LinksAfter(ops: seq<LinkOp>): LinkTable {
    if ops == [] then LinkTable({}, map[]) else ApplyLink(LinksAfter(ops[..|ops| - 1]), ops[|ops| - 1])
  }

  // A half operation that finds what it counts on: an insertion the actors it tested for, a
  // removal an actor that nobody linked since its links were cut.
  ghost predicate Undisturbed(t: LinkTable, op: LinkOp) {
    && (op.InsertOp? ==> Linkable(t, op.watcher, op.target))
    && (op.DropOp? ==> Unlinked(t.links, op.id))
  }

  lemma ApplyKeepsIff(t: LinkTable, op: LinkOp)
    requires LinksRegistered(t.actors, t.links)
    ensures var u := ApplyLink(t, op);
            LinksRegistered(u.actors, u.links) <==> Undisturbed(t, op)
  {
    match op {
      case InsertOp(w, x) => InsertKeepsIff(t, w, x);
      case DropOp(id) => DropKeepsIff(t, id);
      case _ =>
    }
  }

  ghost predicate RegisteredThroughout(ops: seq<LinkOp>) {
    forall k :: 0 <= k <= |ops| ==> LinksRegistered(LinksAfter(ops[..k]).actors, LinksAfter(ops[..k]).links)
  }

  // However whole and half operations interleave, only registered actors are linked throughout
  // the run exactly when every half operation is undisturbed.
  lemma {:induction false} RegisteredThroughoutIff(ops: seq<LinkOp>)
    ensures RegisteredThroughout(ops)
            <==> forall k :: 0 <= k < |ops| ==> Undisturbed(LinksAfter(ops[..k]), ops[k])
  {
    hide LinksRegistered, Undisturbed;
    assert forall k :: 0 <= k < |ops| ==> ops[..k + 1][..k] == ops[..k];
    if forall k :: 0 <= k < |ops| ==> Undisturbed(LinksAfter(ops[..k]), ops[k]) {
      forall k | 0 <= k <= |ops|
        ensures LinksRegistered(LinksAfter(ops[..k]).actors, LinksAfter(ops[..k]).links)
      {
        UndisturbedKeeps(ops, k);
      }
    }
    if RegisteredThroughout(ops) {
      forall k | 0 <= k < |ops|
        ensures Undisturbed(LinksAfter(ops[..k]), ops[k])
      {
        assert LinksRegistered(LinksAfter(ops[..k + 1]).actors, LinksAfter(ops[..k + 1]).links);
        ApplyKeepsIff(LinksAfter(ops[..k]), ops[k]);
      }
    }
  }

  lemma {:induction false} UndisturbedKeeps(ops: seq<LinkOp>, k: nat)
    requires k <= |ops| && forall j :: 0 <= j < |ops| ==> Undisturbed(LinksAfter(ops[..j]), ops[j])
    ensures LinksRegistered(LinksAfter(ops[..k]).actors, LinksAfter(ops[..k]).links)
  {
    hide Undisturbed;
    if k > 0 {
      UndisturbedKeeps(ops, k - 1);
      assert ops[..k][..k - 1] == ops[..k - 1];
      ApplyKeepsIff(LinksAfter(ops[..k - 1]), ops[k - 1]);
    }
  }

  // In every run of whole operations only registered actors are linked.
  lemma LinksAlwaysRegistered(ops: seq<LinkOp>)
    requires forall k :: 0 <= k < |ops| ==> !ops[k].InsertOp? && !ops[k].DropOp?
    ensures LinksRegistered(LinksAfter(ops).actors, LinksAfter(ops).links)
  {
    RegisteredThroughoutIff(ops);
    assert ops[..|ops|] == ops;
  }

  // The parts make up the whole operation.
  lemma CutAndDrop(t: LinkTable, id: ActorId)
    ensures Drop(Cut(t, id), id) == Leave(t, id)
    ensures Drop(Cut(TakeOut(t, id), id), id) == Leave(t, id)
  {
  }

  lemma CutTwice(t: LinkTable, id: ActorId)
    ensures Cut(TakeOut(t, id), id) == Cut(t, id)
  {
  }

  // What UnregisterActor leaves of the links.
  lemma LeaveEffect(t: LinkTable, id: ActorId)
    ensures var u := Leave(t, id);
            && Unlinked(u.links, id)
            && (forall x :: WatchersOf(u.links, x) == if x == id then {} else WatchersOf(t.links, x) - {id})
            && (LinksRegistered(t.actors, t.links) ==> LinksRegistered(u.actors, u.links))
            && (LinksRegistered(t.actors, t.links) ==> WatchersOf(t.links, id) <= t.actors)
  {
  }

  // The second half keeps that exactly when nobody linked the actor since the first,
  lemma DropKeepsIff(t: LinkTable, id: ActorId)
    requires LinksRegistered(t.actors, t.links)
    ensures LinksRegistered(Drop(t, id).actors, Drop(t, id).links) <==> Unlinked(t.links, id)
  {
  }

  // and a whole LinkActor in between is enough to disturb it.
  lemma LinkDuringUnregisterDangles(watcher: ActorId, target: ActorId)
    requires watcher != target
    ensures Linkable(LinksAfter([EnterOp(watcher), EnterOp(target), CutOp(target)]), watcher, target)
    ensures var t := LinksAfter([EnterOp(watcher), EnterOp(target), CutOp(target), LinkOp(watcher, target),
                                 DropOp(target)]);
            target !in t.actors && watcher in WatchersOf(t.links, target)
  {
    var one := [EnterOp(watcher)];
    var two := [EnterOp(watcher), EnterOp(target)];
    var three := [EnterOp(watcher), EnterOp(target), CutOp(target)];
    var four := [EnterOp(watcher), EnterOp(target), CutOp(target), LinkOp(watcher, target)];
    var five := [EnterOp(watcher), EnterOp(target), CutOp(target), LinkOp(watcher, target), DropOp(target)];
    assert one[..0] == [] && two[..1] == one && three[..2] == two && four[..3] == three && five[..4] == four;
    assert LinksAfter(two) == Enter(LinksAfter(one), target);
    assert LinksAfter(three) == Cut(LinksAfter(two), target);
  }

  // One that runs earlier, after the watchers were taken out, is undone: that watcher was linked,
  // but is told nothing.
  lemma LinkAfterNoticesIsNotTold(watcher: ActorId, target: ActorId)
    requires watcher != target
    ensures var ops := [EnterOp(watcher), EnterOp(target), TakeOutOp(target), LinkOp(watcher, target), CutOp(target)];
            && WatchersOf(LinksAfter(ops[..2]).links, target) == {}
            && WatchersOf(LinksAfter(ops[..4]).links, target) == {watcher}
            && Unlinked(LinksAfter(ops).links, target)
  {
    var ops := [EnterOp(watcher), EnterOp(target), TakeOutOp(target), LinkOp(watcher, target), CutOp(target)];
    assert ops[..5] == ops;
    assert forall k :: 0 <= k < 5 ==> ops[..k + 1][..k] == ops[..k];
    assert LinksAfter(ops[..1]) == Enter(LinksAfter(ops[..0]), watcher);
    assert LinksAfter(ops[..2]) == Enter(LinksAfter(ops[..1]), target);
    assert LinksAfter(ops[..3]) == TakeOut(LinksAfter(ops[..2]), target);
    assert LinksAfter(ops[..4]) == Link(LinksAfter(ops[..3]), watcher, target);
    assert LinksAfter(ops[..5]) == Cut(LinksAfter(ops[..4]), target);
  }

  // An insertion keeps that exactly when the test would still succeed,
  lemma InsertKeepsIff(t: LinkTable, watcher: ActorId, target: ActorId)
    requires LinksRegistered(t.actors, t.links)
    ensures LinksRegistered(t.actors, Insert(t, watcher, target).links) <==> Linkable(t, watcher, target)
  {
    assert watcher in Insert(t, watcher, target).links[target];
  }

  // and it no longer does if the watcher was unregistered in between.
  lemma LateInsertLinksUnregistered(watcher: ActorId, target: ActorId)
    requires watcher != target
    ensures Linkable(LinksAfter([EnterOp(watcher), EnterOp(target)]), watcher, target)
    ensures var t := LinksAfter([EnterOp(watcher), EnterOp(target), LeaveOp(watcher), InsertOp(watcher, target)]);
            watcher !in t.actors && watcher in WatchersOf(t.links, target)
  {
    var one := [EnterOp(watcher)];
    var two := [EnterOp(watcher), EnterOp(target)];
    var three := [EnterOp(watcher), EnterOp(target), LeaveOp(watcher)];
    var four := [EnterOp(watcher), EnterOp(target), LeaveOp(watcher), InsertOp(watcher, target)];
    assert one[..0] == [] && two[..1] == one && three[..2] == two && four[..3] == three;
    assert LinksAfter(two) == Enter(LinksAfter(one), target);
  }

  // `t` occurs nowhere in the registry.
  ghost predicate Unlinked(links: map<ActorId, set<ActorId>>, id: ActorId) {
    id !in links && forall t :: t in links ==> id !in links[t]
  }

  // The notices to the given watchers about one target, watcher by watcher in ascending order.
  ghost predicate NoticesTo(notices: seq<(ActorId, ActorId)>, watchers: set<ActorId>, target: ActorId) {
    && (forall i :: 0 <= i < |notices| ==> notices[i].1 == target && notices[i].0 in watchers)
    && (forall i, j :: 0 <= i < j < |notices| ==> notices[i].0 < notices[j].0)
    && (forall w :: w in watchers ==> exists i :: 0 <= i < |notices| && notices[i].0 == w)
  }

  lemma NoticesExtend(notices: seq<(ActorId, ActorId)>, told: set<ActorId>, w: ActorId, target: ActorId)
    requires NoticesTo(notices, told, target)
    requires forall i :: 0 <= i < |notices| ==> notices[i].0 < w
    ensures NoticesTo(notices + [(w, target)], told + {w}, target)
  {
    var more := notices + [(w, target)];
    assert more[|notices|].0 == w;
    forall v | v in told
      ensures exists i :: 0 <= i < |more| && more[i].0 == v
    {
      var i :| 0 <= i < |notices| && notices[i].0 == v;
      assert more[i] == notices[i];
    }
  }

  // All but the watchers in `rest` have been told, and those come later in the order.
  ghost predicate TellingInOrder(notices: seq<(ActorId, ActorId)>, watchers: set<ActorId>, rest: set<ActorId>,
                                 target: ActorId)
  {
    && rest <= watchers
    && NoticesTo(notices, watchers - rest, target)
    && forall i, w :: 0 <= i < |notices| && w in rest ==> notices[i].0 < w
  }

  lemma TellsNext(notices: seq<(ActorId, ActorId)>, watchers: set<ActorId>, rest: set<ActorId>, w: ActorId,
                  target: ActorId)
    requires TellingInOrder(notices, watchers, rest, target)
    requires w in rest && forall y :: y in rest ==> w <= y
    ensures TellingInOrder(notices + [(w, target)], watchers, rest - {w}, target)
  {
    NoticesExtend(notices, watchers - rest, w, target);
    assert watchers - (rest - {w}) == (watchers - rest) + {w};
  }

  lemma AllTold(notices: seq<(ActorId, ActorId)>, watchers: set<ActorId>, target: ActorId)
    requires TellingInOrder(notices, watchers, {}, target)
    ensures NoticesTo(notices, watchers, target)
  {
    assert watchers - {} == watchers;
  }

  method LeastOf(s: set<ActorId>) returns (least: ActorId)
    requires s != {}
    ensures least in s && forall y :: y in s ==> least <= y
  {
    least :| least in s;
    var rest := s - {least};
    while rest != {}
      invariant least in s && rest <= s
      invariant forall y :: y in s ==> y in rest || least <= y
    {
      var y :| y in rest;
      if y < least {
        least := y;
      }
      rest := rest - {y};
    }
  }

  // --------------------------------------------------------------------------------------
  // Transports
  // --------------------------------------------------------------------------------------

  // One IClusterTransport as SendToRemote sees it: its node, and the nodes it can reach.
  datatype Transport = Transport(localNodeId: bytes, reachable: set<bytes>)

  // The first transport that can reach the node.
  function FirstReaching(ts: seq<Transport>, node: bytes): nat {
    if ts == [] then 0
    else if node in ts[0].reachable then 0
    else 1 + FirstReaching(ts[1..], node)
  }

  class ActorSystem {
    var nextActorId: ActorId
    var actors: set<ActorId>
    var nameToActor: map<Name, ActorId>
    var actorToName: map<ActorId, Name>
    var linkMap: map<ActorId, set<ActorId>>
    // Messages accepted by Send, in order, with their receiver.
    var mail: seq<(ActorId, ActorMessage)>
    var transports: seq<Transport>

    constructor ()
      ensures Links() == LinkTable({}, map[]) && Names() == NameTable(map[], map[])
      ensures nextActorId == 1 && mail == [] && transports == []
    {
      nextActorId := 1;
      actors, nameToActor, actorToName, linkMap, mail, transports := {}, map[], map[], map[], [], [];
    }

    ghost function Names(): NameTable
      reads this
    {
      NameTable(nameToActor, actorToName)
    }

    ghost function Links(): LinkTable
      reads this
    {
      LinkTable(actors, linkMap)
    }

    // The id counter has 32 bits.
    method RegisterActor() returns (id: ActorId)
      modifies this`nextActorId, this`actors
      ensures id == old(nextActorId) && nextActorId == (id + 1) % 0x1_0000_0000
      ensures Links() == Enter(old(Links()), id)
    {
      id := nextActorId;
      nextActorId := (nextActorId + 1) % 0x1_0000_0000;
      actors := actors + {id};
    }

    method Send(actorId: ActorId, msg: ActorMessage)
      modifies this`mail
      ensures mail == if actorId in actors then old(mail) + [(actorId, msg)] else old(mail)
    {
      if actorId !in actors {
        return;
      }
      mail := mail + [(actorId, msg)];
    }

    method RegisterName(name: Name, actorId: ActorId)
      modifies this`nameToActor, this`actorToName
      ensures Names() == Bind(old(Names()), name, actorId)
    {
      if name in nameToActor {
        actorToName := actorToName - {nameToActor[name]};
      }
      nameToActor := nameToActor[name := actorId];
      actorToName := actorToName[actorId := name];
    }

    method UnregisterName(name: Name)
      modifies this`nameToActor, this`actorToName
      ensures Names() == Unbind(old(Names()), name)
    {
      if name in nameToActor {
        actorToName := actorToName - {nameToActor[name]};
        nameToActor := nameToActor - {name};
      }
    }

    method FindActor(name: Name) returns (id: ActorId)
      ensures id == Find(Names(), name)
    {
      if name !in nameToActor {
        return 0;
      }
      id := nameToActor[name];
    }

    method GetActorName(actorId: ActorId) returns (name: Name)
      ensures name == NameOf(Names(), actorId)
    {
      if actorId in actorToName {
        return actorToName[actorId];
      }
      return [];
    }

    method SendByName(name: Name, msg: ActorMessage) returns (sent: bool)
      modifies this`mail
      ensures sent == (Find(Names(), name) > 0)
      ensures mail == if sent && Find(Names(), name) in actors then old(mail) + [(Find(Names(), name), msg)]
                      else old(mail)
    {
      var actorId := FindActor(name);
      if actorId > 0 {
        Send(actorId, msg);
        return true;
      }
      return false;
    }

    method LinkActor(watcherId: ActorId, targetId: ActorId)
      modifies this`linkMap
      ensures Links() == Link(old(Links()), watcherId, targetId)
      ensures LinksRegistered(actors, old(linkMap)) ==> LinksRegistered(actors, linkMap)
    {
      if watcherId == targetId {
        return;
      }
      if watcherId !in actors {
        return;
      }
      if targetId !in actors {
        return;
      }
      if targetId !in linkMap {
        linkMap := linkMap[targetId := {}];
      }
      linkMap := linkMap[targetId := linkMap[targetId] + {watcherId}];
    }

    method UnlinkActor(watcherId: ActorId, targetId: ActorId)
      modifies this`linkMap
      ensures Links() == Unlink(old(Links()), watcherId, targetId)
      ensures forall t :: WatchersOf(linkMap, t) ==
                            if t == targetId then WatchersOf(old(linkMap), t) - {watcherId}
                            else WatchersOf(old(linkMap), t)
      ensures LinksRegistered(actors, old(linkMap)) ==> LinksRegistered(actors, linkMap)
    {
      if targetId in linkMap {
        linkMap := linkMap[targetId := linkMap[targetId] - {watcherId}];
        if linkMap[targetId] == {} {
          linkMap := linkMap - {targetId};
        }
      }
    }

    // Takes the watchers of the target out of the registry, then sends each of them ActorDown,
    // which reaches those that are registered.
    method notifyActorDown(targetId: ActorId) returns (ghost notices: seq<(ActorId, ActorId)>)
      modifies this`linkMap, this`mail
      ensures linkMap == old(linkMap) - {targetId}
      ensures NoticesTo(notices, WatchersOf(old(linkMap), targetId), targetId)
      ensures mail == old(mail) + Delivered(notices, actors)
    {
      var watchers := {};
      if targetId in linkMap {
        watchers := linkMap[targetId];
        linkMap := linkMap - {targetId};
      }
      notices := [];
      var rest := watchers;
      while rest != {}
        invariant TellingInOrder(notices, watchers, rest, targetId)
        invariant mail == old(mail) + Delivered(notices, actors)
        invariant linkMap == old(linkMap) - {targetId}
        decreases rest
      {
        var watcherId := LeastOf(rest);
        Send(watcherId, DownMessage(targetId));
        TellsNext(notices, watchers, rest, watcherId, targetId);
        DeliveredAppend(notices, (watcherId, targetId), actors);
        notices := notices + [(watcherId, targetId)];
        rest := rest - {watcherId};
      }
      AllTold(notices, watchers, targetId);
    }

    method UnregisterActor(actorId: ActorId) returns (ghost notices: seq<(ActorId, ActorId)>)
      modifies this
      ensures Links() == Leave(old(Links()), actorId)
      ensures Names() == Forget(old(Names()), actorId)
      ensures transports == old(transports)
      ensures NoticesTo(notices, WatchersOf(old(linkMap), actorId), actorId)
      ensures mail == old(mail) + Delivered(notices, old(actors))
      ensures LinksRegistered(old(actors), old(linkMap)) ==>
                ToldOnce(mail[|old(mail)|..], WatchersOf(old(linkMap), actorId), actorId)
      ensures Unlinked(linkMap, actorId)
      ensures forall t :: WatchersOf(linkMap, t) ==
                            if t == actorId then {} else WatchersOf(old(linkMap), t) - {actorId}
      ensures LinksRegistered(old(actors), old(linkMap)) ==> LinksRegistered(actors, linkMap)
    {
      hide NoticesTo, Delivered, ToldOnce, Leave, Cut, Unlinked, LinksRegistered;
      LeaveEffect(Links(), actorId);
      notices := notifyActorDown(actorId);
      assert mail[|old(mail)|..] == Delivered(notices, actors);
      if LinksRegistered(old(actors), old(linkMap)) {
        WatchersToldOnce(notices, WatchersOf(old(linkMap), actorId), actorId, actors);
      }
      EraseName(actorId);
      CutLinks(actorId);
      CutTwice(old(Links()), actorId);
      actors := actors - {actorId};
      CutAndDrop(old(Links()), actorId);
    }

    // The sections of UnregisterActor under nameLock_ and linkLock_.
    method EraseName(actorId: ActorId)
      modifies this`nameToActor, this`actorToName
      ensures Names() == Forget(old(Names()), actorId)
    {
      if actorId in actorToName {
        nameToActor := nameToActor - {actorToName[actorId]};
        actorToName := actorToName - {actorId};
      }
    }

    method CutLinks(actorId: ActorId)
      modifies this`linkMap
      ensures Links() == Cut(old(Links()), actorId)
    {
      linkMap := linkMap - {actorId};
      linkMap := map t | t in linkMap :: linkMap[t] - {actorId};
    }

    method RegisterTransport(t: Transport)
      modifies this`transports
      ensures transports == if t in old(transports) then old(transports) else old(transports) + [t]
    {
      for i := 0 to |transports|
        invariant t !in transports[..i]
      {
        if transports[i] == t {
          return;
        }
      }
      assert transports[..|transports|] == transports;
      transports := transports + [t];
    }

    // Offers a packet to the transports in turn. The payload is moved into the first packet, so
    // that every later transport gets an empty one; a shared buffer is not looked at.
    method SendToRemote(targetNodeId: bytes, targetActorName: Name, msg: ActorMessage, senderName: Name)
      returns (sent: bool, accepted: ClusterPacket)
      ensures var sender := if senderName == [] && msg.sourceId > 0 then NameOf(Names(), msg.sourceId) else senderName;
              (if sent then Some(accepted) else None)
              == AcceptedPacket(transports, targetNodeId, targetActorName, msg, sender)
      ensures sent <==> exists k :: 0 <= k < |transports| && targetNodeId in transports[k].reachable
      ensures sent ==>
                && accepted.targetNodeId == targetNodeId && accepted.targetActorName == targetActorName
                && accepted.sessionId == msg.sessionId && accepted.isResponse == msg.isResponse
                && accepted.sourceActorName == (if senderName != [] then senderName
                                                else if msg.sourceId in actorToName && msg.sourceId > 0
                                                then actorToName[msg.sourceId] else [])
                && exists k :: 0 <= k < |transports| && accepted.sourceNodeId == transports[k].localNodeId
                               && targetNodeId in transports[k].reachable
                               && forall j :: 0 <= j < k ==> targetNodeId !in transports[j].reachable
    {
      var resolvedSenderName := senderName;
      if resolvedSenderName == [] && msg.sourceId > 0 {
        resolvedSenderName := GetActorName(msg.sourceId);
      }
      var data := msg.data;
      for i := 0 to |transports|
        invariant forall j :: 0 <= j < i ==> targetNodeId !in transports[j].reachable
        invariant data == RemoteData(msg, i)
      {
        accepted := RemotePacket(transports[i].localNodeId, targetNodeId, targetActorName, msg,
                                 resolvedSenderName, data);
        data := [];
        if Accepts(transports[i], accepted) {
          FirstReachingIs(transports, targetNodeId, i);
          return true, accepted;
        }
      }
      FirstReachingIs(transports, targetNodeId, |transports|);
      sent := false;
      accepted := NO_PACKET;
    }
  }

  // SendPacket of a transport looks up the connection for the node that the packet names.
  predicate Accepts(t: Transport, p: ClusterPacket) {
    p.targetNodeId in t.reachable
  }

  function RemotePacket(local: bytes, target: bytes, name: Name, msg: ActorMessage,
                        sender: Name, data: bytes): ClusterPacket {
    ClusterPacket(local, target, sender, name, msg.sessionId, msg.isResponse, data)
  }

  // What the packet offered to the k-th transport carries.
  function RemoteData(msg: ActorMessage, k: nat): bytes {
    if k == 0 then msg.data else []
  }

  // The packet that SendToRemote gets accepted, if any, for a sender with that name.
  function AcceptedPacket(ts: seq<Transport>, node: bytes, name: Name, msg: ActorMessage,
                          sender: Name): Option<ClusterPacket>
  {
    var k := FirstReaching(ts, node);
    if k < |ts| then Some(RemotePacket(ts[k].localNodeId, node, name, msg, sender, RemoteData(msg, k))) else None
  }

  // A payload is complete at the remote node exactly when the first transport takes the packet
  // and the payload is what `data` holds, or it is empty anyway.
  lemma PayloadReachesRemote(ts: seq<Transport>, node: bytes, name: Name, msg: ActorMessage, sender: Name)
    requires AcceptedPacket(ts, node, name, msg, sender).Some?
    ensures AcceptedPacket(ts, node, name, msg, sender).value.data == msg.Payload()
            <==> if node in ts[0].reachable then msg.data == msg.Payload() else msg.Payload() == []
    ensures msg.WellBuilt() ==>
              (AcceptedPacket(ts, node, name, msg, sender).value.data == msg.Payload()
               <==> msg.Payload() == [] || (node in ts[0].reachable && msg.sharedBuf.None?))
  {
    if node in ts[0].reachable {
      FirstReachingIs(ts, node, 0);
    } else {
      assert FirstReaching(ts, node) >= 1;
    }
  }

  // A payload in a shared buffer never arrives, and one in `data` not over the second transport.
  lemma PayloadIsLost(node: bytes, name: Name, payload: bytes, sender: Name)
    requires payload != []
    ensures var ts := [Transport([], {node})];
            var msg := ActorMessage(UserMessage, sharedBuf := Some(payload));
            && AcceptedPacket(ts, node, name, msg, sender).Some?
            && AcceptedPacket(ts, node, name, msg, sender).value.data == [] != msg.Payload()
    ensures var ts := [Transport([], {}), Transport([], {node})];
            var msg := ActorMessage(UserMessage, data := payload);
            && AcceptedPacket(ts, node, name, msg, sender).Some?
            && AcceptedPacket(ts, node, name, msg, sender).value.data == [] != msg.Payload()
  {
    FirstReachingIs([Transport([], {}), Transport([], {node})], node, 1);
  }

  lemma {:induction false} FirstReachingIs(ts: seq<Transport>, node: bytes, k: nat)
    requires k <= |ts| && forall j :: 0 <= j < k ==> node !in ts[j].reachable
    requires k < |ts| ==> node in ts[k].reachable
    ensures FirstReaching(ts, node) == k
  {
    if k > 0 {
      FirstReachingIs(ts[1..], node, k - 1);
    }
  }

  // The content of an ActorDown message is the id of the actor that went away, written as text
  // by the program; here it travels in the source field alone.
  function DownMessage(targetId: ActorId): ActorMessage {
    ActorMessage(MsgType.ActorDown, sourceId := targetId)
  }

  // The mail that the notices are: those to registered watchers.
  function Delivered(notices: seq<(ActorId, ActorId)>, actors: set<ActorId>): seq<(ActorId, ActorMessage)> {
    if notices == [] then []
    else
      var before, last := Delivered(notices[..|notices| - 1], actors), notices[|notices| - 1];
      if last.0 in actors then before + [(last.0, DownMessage(last.1))] else before
  }

  lemma DeliveredAppend(notices: seq<(ActorId, ActorId)>, n: (ActorId, ActorId), actors: set<ActorId>)
    ensures Delivered(notices + [n], actors)
            == Delivered(notices, actors) + if n.0 in actors then [(n.0, DownMessage(n.1))] else []
  {
    assert (notices + [n])[..|notices|] == notices;
  }

  // While only registered actors are linked, every notice is delivered.
  lemma {:induction false} AllDelivered(notices: seq<(ActorId, ActorId)>, actors: set<ActorId>)
    requires forall i :: 0 <= i < |notices| ==> notices[i].0 in actors
    ensures |Delivered(notices, actors)| == |notices|
    ensures forall i :: 0 <= i < |notices| ==>
              Delivered(notices, actors)[i] == (notices[i].0, DownMessage(notices[i].1))
  {
    if notices != [] {
      AllDelivered(notices[..|notices| - 1], actors);
    }
  }

  // Each of the watchers gets ActorDown about the target, once, and nobody else gets anything.
  ghost predicate ToldOnce(mail: seq<(ActorId, ActorMessage)>, watchers: set<ActorId>, target: ActorId) {
    && (forall i :: 0 <= i < |mail| ==>
          mail[i].0 in watchers && mail[i].1.msgType == MsgType.ActorDown && mail[i].1.sourceId == target
          && !mail[i].1.isResponse && mail[i].1.sessionId == 0)
    && (forall i, j :: 0 <= i < j < |mail| ==> mail[i].0 != mail[j].0)
    && (forall w :: w in watchers ==> exists i :: 0 <= i < |mail| && mail[i].0 == w)
  }

  lemma WatchersToldOnce(notices: seq<(ActorId, ActorId)>, watchers: set<ActorId>, target: ActorId,
                         actors: set<ActorId>)
    requires NoticesTo(notices, watchers, target) && watchers <= actors
    ensures ToldOnce(Delivered(notices, actors), watchers, target)
  {
    hide Delivered;
    AllDelivered(notices, actors);
    var mail := Delivered(notices, actors);
    forall w | w in watchers
      ensures exists i :: 0 <= i < |mail| && mail[i].0 == w
    {
      var i :| 0 <= i < |notices| && notices[i].0 == w;
      assert mail[i].0 == w;
    }
  }
}
