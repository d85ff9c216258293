/**
 * Replication target selection and fetch fallback (sn_node/src/replication.rs).
 *
 * The node's collaborators become parameters: the results of
 * `get_all_local_peers` and `get_all_local_record_addresses`, the peer view
 * (`sort_peers_by_address` and the XOR distance it sorts by), and the outcome of
 * `send_req_ignore_reply` for each message. A method returns, beside its
 * `Result`, the messages that were handed to the network, in order.
 */
module Replication {
  import opened Wrappers
  import opened Types
  import opened NetworkApi

  /** libp2p's `K_VALUE`. */
  const K_VALUE: nat := 20

  /** `sn_networking::CLOSE_GROUP_SIZE`. */
  const CLOSE_GROUP_SIZE: nat := 5

  function Min(a: nat, b: nat): nat
  {
    if a <= b then a else b
  }

  /** The peer view: XOR distance, and `sort_peers_by_address(peers, target, n)`. */
  datatype PeerView = PeerView(
    distance: (PeerId, NetworkAddress) -> nat,
    sortPeersByAddress: (seq<PeerId>, NetworkAddress, nat) -> Result<seq<PeerId>, NetworkError>)

  /** `out` is sorted by distance to `target`, drawn from `peers`, and `min(n, |peers|)` long. */
  ghost predicate ClosestSorted(v: PeerView, peers: seq<PeerId>, target: NetworkAddress, n: nat, out: seq<PeerId>)
  {
    && |out| == Min(n, |peers|)
    && (forall i :: 0 <= i < |out| ==> out[i] in peers)
    && (forall i, j :: 0 <= i < j < |out| ==> v.distance(out[i], target) <= v.distance(out[j], target))
  }

  /** What `sort_peers_by_address` promises whenever it succeeds. */
  ghost predicate SortsByDistance(v: PeerView)
  {
    forall peers, target, n {:trigger v.sortPeersByAddress(peers, target, n)} ::
      v.sortPeersByAddress(peers, target, n).Ok? ==>
        ClosestSorted(v, peers, target, n, v.sortPeersByAddress(peers, target, n).value)
  }

  /** A message handed to `send_req_ignore_reply`, with its destination. */
  datatype Outbound = Outbound(peer: PeerId, request: Request)

  /** The peers considered on a churn event: a removed peer is still considered. */
  function ChurnPeers(localPeers: seq<PeerId>, churned: PeerId, isRemoval: bool): seq<PeerId>
  {
    if isRemoval then localPeers + [churned] else localPeers
  }

  /** The `CLOSE_GROUP_SIZE + 1` peers closest to `key`. */
  function Group(v: PeerView, peers: seq<PeerId>, key: NetworkAddress): Result<seq<PeerId>, NetworkError>
  {
    v.sortPeersByAddress(peers, key, CLOSE_GROUP_SIZE + 1)
  }

  /**
   * The selection rule for one key, given its sorted group. A churned peer outside
   * the group selects nothing. An added peer is selected iff it is not the
   * group's farthest member; a removal selects the farthest member iff that is
   * not the removed peer itself.
   */
  function TargetFor(group: seq<PeerId>, churned: PeerId, isRemoval: bool): (t: Option<PeerId>)
    ensures churned !in group ==> t.None?
    ensures t.Some? <==> churned in group && group[|group| - 1] != churned
    ensures t.Some? && !isRemoval ==> t.value == churned
    ensures t.Some? && isRemoval ==> t.value == group[|group| - 1] && t.value != churned
  {
    if churned !in group then None
    else if isRemoval then
      (if group[|group| - 1] != churned then Some(group[|group| - 1]) else None)
    else if group[|group| - 1] != churned then Some(churned)
    else None
  }

  ghost predicate AllGroupsOk(v: PeerView, peers: seq<PeerId>, keys: set<NetworkAddress>)
  {
    forall k :: k in keys ==> Group(v, peers, k).Ok?
  }

  ghost function KeyTarget(v: PeerView, peers: seq<PeerId>, key: NetworkAddress, churned: PeerId, isRemoval: bool): Option<PeerId>
    requires Group(v, peers, key).Ok?
  {
    TargetFor(Group(v, peers, key).value, churned, isRemoval)
  }

  /**
   * `plan` is the replication plan of `keys`: it maps each target to exactly the
   * non-empty set of keys whose selection rule picks that target.
   */
  ghost predicate IsPlan(v: PeerView, peers: seq<PeerId>, keys: set<NetworkAddress>, churned: PeerId, isRemoval: bool,
                         plan: map<PeerId, set<NetworkAddress>>)
    requires AllGroupsOk(v, peers, keys)
  {
    && (forall p :: p in plan ==> plan[p] != {})
    && (forall p, k :: p in plan && k in plan[p] ==> k in keys && KeyTarget(v, peers, k, churned, isRemoval) == Some(p))
    && (forall k :: k in keys && KeyTarget(v, peers, k, churned, isRemoval).Some? ==>
          var p := KeyTarget(v, peers, k, churned, isRemoval).value; p in plan && k in plan[p])
  }

  ghost function SentPeers(sent: seq<Outbound>): set<PeerId>
  {
    set i | 0 <= i < |sent| :: sent[i].peer
  }

  /**
   * `sent` carries one `Replicate { holder, keys }` per target of `plan`, with
   * exactly that target's keys, each sent successfully; on success every target
   * got one, and on failure the send to some target not yet served failed.
   */
  ghost predicate DispatchedPlan(
    holder: NetworkAddress, plan: map<PeerId, set<NetworkAddress>>,
    send: (PeerId, Request) -> Result<(), NetworkError>,
    sent: seq<Outbound>, r: Result<(), NetworkError>)
  {
    && (forall i :: 0 <= i < |sent| ==> SentNotice(holder, plan, send, sent[i]))
    && (forall i, j :: 0 <= i < j < |sent| ==> sent[i].peer != sent[j].peer)
    && (r.Ok? ==> SentPeers(sent) == plan.Keys)
    && (r.Err? ==>
          exists p :: p in plan && p !in SentPeers(sent) && send(p, CmdRequest(Replicate(holder, plan[p]))) == Err(r.error))
  }

  lemma SentPeersSnoc(sent: seq<Outbound>, o: Outbound)
    ensures SentPeers(sent + [o]) == SentPeers(sent) + {o.peer}
  {
    var s := sent + [o];
    assert s[|sent|] == o;
    forall p | p in SentPeers(sent) ensures p in SentPeers(s) {
      var i :| 0 <= i < |sent| && sent[i].peer == p;
      assert s[i] == sent[i];
    }
  }

  /** `send_replicate_cmd_without_wait`: one `Cmd::Replicate` from `holder`; a send error is returned. */
  function SendReplicateCmd(
    send: (PeerId, Request) -> Result<(), NetworkError>,
    holder: NetworkAddress, peer: PeerId, keys: set<NetworkAddress>): (r: Result<Outbound, NetworkError>)
    ensures r.Ok? ==>
      r.value.peer == peer && r.value.request.CmdRequest? && r.value.request.cmd.holder == holder && r.value.request.cmd.keys == keys
    ensures r.Ok? <==> send(peer, CmdRequest(Replicate(holder, keys))).Ok?
    ensures r.Err? ==> r.error == send(peer, CmdRequest(Replicate(holder, keys))).error
  {
    var request := CmdRequest(Replicate(holder, keys));
    match send(peer, request)
    case Err(e) => Err(e)
    case Ok(_) => Ok(Outbound(peer, request))
  }

  /** Taking one more key into account changes the plan only at that key's target. */
  lemma PlanInsert(v: PeerView, peers: seq<PeerId>, seen: set<NetworkAddress>, key: NetworkAddress, churned: PeerId, isRemoval: bool,
                   plan: map<PeerId, set<NetworkAddress>>)
    requires AllGroupsOk(v, peers, seen) && Group(v, peers, key).Ok? && key !in seen
    requires IsPlan(v, peers, seen, churned, isRemoval, plan)
    ensures AllGroupsOk(v, peers, seen + {key})
    ensures IsPlan(v, peers, seen + {key}, churned, isRemoval,
      match KeyTarget(v, peers, key, churned, isRemoval)
      case None => plan
      case Some(t) => plan[t := (if t in plan then plan[t] else {}) + {key}])
  {
    var s := seen + {key};
    assert AllGroupsOk(v, peers, s);
    match KeyTarget(v, peers, key, churned, isRemoval)
    case None =>
    case Some(t) =>
      var plan' := plan[t := (if t in plan then plan[t] else {}) + {key}];
      forall p, k | p in plan' && k in plan'[p]
        ensures k in s && KeyTarget(v, peers, k, churned, isRemoval) == Some(p)
      {
        if k != key {
          assert p in plan && k in plan[p];
        }
      }
      forall k | k in s && KeyTarget(v, peers, k, churned, isRemoval).Some?
        ensures var p := KeyTarget(v, peers, k, churned, isRemoval).value; p in plan' && k in plan'[p]
      {
      }
  }

  /**
   * The `for key in all_records` loop: sorts every key's group and builds the
   * plan; the first sort error aborts.
   */
  method BuildReplicationPlan(
    v: PeerView, allPeers: seq<PeerId>, allRecords: set<NetworkAddress>, peer: PeerId, isRemoval: bool)
    returns (r: Result<map<PeerId, set<NetworkAddress>>, NetworkError>)
    ensures r.Ok? <==> AllGroupsOk(v, allPeers, allRecords)
    ensures r.Ok? ==> IsPlan(v, allPeers, allRecords, peer, isRemoval, r.value)
    ensures r.Err? ==> exists k :: k in allRecords && Group(v, allPeers, k) == Err(r.error)
  {
    var replicateTo: map<PeerId, set<NetworkAddress>> := map[];
    var remaining := allRecords;
    while remaining != {}
      invariant remaining <= allRecords
      invariant AllGroupsOk(v, allPeers, allRecords - remaining)
      invariant IsPlan(v, allPeers, allRecords - remaining, peer, isRemoval, replicateTo)
      decreases |remaining|
    {
      var key :| key in remaining;
      var sorted := v.sortPeersByAddress(allPeers, key, CLOSE_GROUP_SIZE + 1);
      if sorted.Err? {
        return Err(sorted.error);
      }
      ghost var seen := allRecords - remaining;
      PlanInsert(v, allPeers, seen, key, peer, isRemoval, replicateTo);
      var target := TargetFor(sorted.value, peer, isRemoval);
      if target.Some? {
        var keys := if target.value in replicateTo then replicateTo[target.value] else {};
        replicateTo := replicateTo[target.value := keys + {key}];
      }
      assert allRecords - (remaining - {key}) == seen + {key};
      remaining := remaining - {key};
    }
    assert allRecords - remaining == allRecords;
    r := Ok(replicateTo);
  }

  /** `o` is the notice for its target in `plan`, and it was sent successfully. */
  ghost predicate SentNotice(holder: NetworkAddress, plan: map<PeerId, set<NetworkAddress>>,
                             send: (PeerId, Request) -> Result<(), NetworkError>, o: Outbound)
  {
    o.peer in plan && o.request == CmdRequest(Replicate(holder, plan[o.peer])) && send(o.peer, o.request).Ok?
  }

  /** The state of the send loop: `sent` served exactly the targets no longer `pending`, once each. */
  ghost predicate SentSoFar(holder: NetworkAddress, plan: map<PeerId, set<NetworkAddress>>,
                            send: (PeerId, Request) -> Result<(), NetworkError>,
                            sent: seq<Outbound>, pending: set<PeerId>)
  {
    && pending <= plan.Keys
    && SentPeers(sent) == plan.Keys - pending
    && (forall i :: 0 <= i < |sent| ==> SentNotice(holder, plan, send, sent[i]))
    && (forall i, j :: 0 <= i < j < |sent| ==> sent[i].peer != sent[j].peer)
  }

  lemma SentSoFarStep(holder: NetworkAddress, plan: map<PeerId, set<NetworkAddress>>,
                      send: (PeerId, Request) -> Result<(), NetworkError>,
                      sent: seq<Outbound>, pending: set<PeerId>, o: Outbound)
    requires SentSoFar(holder, plan, send, sent, pending)
    requires o.peer in pending && SentNotice(holder, plan, send, o)
    ensures SentSoFar(holder, plan, send, sent + [o], pending - {o.peer})
  {
    SentPeersSnoc(sent, o);
    var s := sent + [o];
    forall i, j | 0 <= i < j < |s| ensures s[i].peer != s[j].peer {
      if j == |sent| {
        assert s[i].peer in SentPeers(sent);
      }
    }
  }

  /** The `for (peer_id, keys) in replicate_to` loop: one notice per target, aborting on a send error. */
  method SendReplicationPlan(
    ourAddress: NetworkAddress, replicateTo: map<PeerId, set<NetworkAddress>>,
    send: (PeerId, Request) -> Result<(), NetworkError>)
    returns (r: Result<(), NetworkError>, sent: seq<Outbound>)
    ensures DispatchedPlan(ourAddress, replicateTo, send, sent, r)
  {
    sent := [];
    var pending := replicateTo.Keys;
    while pending != {}
      invariant SentSoFar(ourAddress, replicateTo, send, sent, pending)
      decreases |pending|
    {
      var target :| target in pending;
      var out := SendReplicateCmd(send, ourAddress, target, replicateTo[target]);
      if out.Err? {
        assert target !in SentPeers(sent);
        return Err(out.error), sent;
      }
      SentSoFarStep(ourAddress, replicateTo, send, sent, pending, out.value);
      sent := sent + [out.value];
      pending := pending - {target};
    }
    r := Ok(());
  }

  /**
   * `try_trigger_targetted_replication`: below `K_VALUE` local peers nothing is
   * sent; otherwise every local key is checked against its sorted group and the
   * resulting plan is sent, one `Replicate` per target. A lookup, sort or send
   * error aborts; sorting finishes before anything is sent.
   */
  method TryTriggerTargetedReplication(
    v: PeerView, ourPeerId: PeerId,
    localPeers: Result<seq<PeerId>, NetworkError>,
    localRecords: Result<set<NetworkAddress>, NetworkError>,
    send: (PeerId, Request) -> Result<(), NetworkError>,
    peer: PeerId, isRemoval: bool)
    returns (r: Result<(), NetworkError>, sent: seq<Outbound>)
    ensures localPeers.Err? ==> r == Err(localPeers.error) && sent == []
    ensures localPeers.Ok? && |localPeers.value| < K_VALUE ==> r == Ok(()) && sent == []
    ensures localPeers.Ok? && |localPeers.value| >= K_VALUE && localRecords.Err? ==>
      r == Err(localRecords.error) && sent == []
    ensures localPeers.Ok? && |localPeers.value| >= K_VALUE && localRecords.Ok? ==>
      var peers := ChurnPeers(localPeers.value, peer, isRemoval);
      var keys := localRecords.value;
      && (!AllGroupsOk(v, peers, keys) ==>
            sent == [] && r.Err? && exists k :: k in keys && Group(v, peers, k) == Err(r.error))
      && (AllGroupsOk(v, peers, keys) ==>
            exists plan :: IsPlan(v, peers, keys, peer, isRemoval, plan)
                           && DispatchedPlan(PeerAddress(ourPeerId), plan, send, sent, r))
  {
    if localPeers.Err? {
      return Err(localPeers.error), [];
    }
    var allPeers := localPeers.value;
    if |allPeers| < K_VALUE {
      return Ok(()), [];
    }
    var ourAddress := PeerAddress(ourPeerId);
    if localRecords.Err? {
      return Err(localRecords.error), [];
    }
    if isRemoval {
      allPeers := allPeers + [peer];
    }
    var replicateTo := BuildReplicationPlan(v, allPeers, localRecords.value, peer, isRemoval);
    if replicateTo.Err? {
      return Err(replicateTo.error), [];
    }
    r, sent := SendReplicationPlan(ourAddress, replicateTo.value, send);
  }

  /** The plan of a key set is unique: `IsPlan` pins down the whole map. */
  lemma PlanUnique(v: PeerView, peers: seq<PeerId>, keys: set<NetworkAddress>, churned: PeerId, isRemoval: bool,
                   p1: map<PeerId, set<NetworkAddress>>, p2: map<PeerId, set<NetworkAddress>>)
    requires AllGroupsOk(v, peers, keys)
    requires IsPlan(v, peers, keys, churned, isRemoval, p1) && IsPlan(v, peers, keys, churned, isRemoval, p2)
    ensures p1 == p2
  {
    forall p | p in p1 ensures p in p2 {
      var k :| k in p1[p];
      assert k in keys && KeyTarget(v, peers, k, churned, isRemoval) == Some(p);
    }
    forall p | p in p2 ensures p in p1 {
      var k :| k in p2[p];
      assert k in keys && KeyTarget(v, peers, k, churned, isRemoval) == Some(p);
    }
    forall p, k | p in p1 && p in p2 ensures k in p1[p] <==> k in p2[p] {
      if k in p1[p] {
        assert k in keys && KeyTarget(v, peers, k, churned, isRemoval) == Some(p);
      }
      if k in p2[p] {
        assert k in keys && KeyTarget(v, peers, k, churned, isRemoval) == Some(p);
      }
    }
    assert p1.Keys == p2.Keys;
    forall p | p in p1 ensures p1[p] == p2[p] {
      assert forall k :: k in p1[p] <==> k in p2[p];
    }
  }

  /** Every target of a plan is one of our local peers, never a removed one. */
  lemma TargetsAreLocalPeers(v: PeerView, localPeers: seq<PeerId>, keys: set<NetworkAddress>, churned: PeerId, isRemoval: bool,
                             plan: map<PeerId, set<NetworkAddress>>)
    requires SortsByDistance(v)
    requires AllGroupsOk(v, ChurnPeers(localPeers, churned, isRemoval), keys)
    requires IsPlan(v, ChurnPeers(localPeers, churned, isRemoval), keys, churned, isRemoval, plan)
    ensures forall p :: p in plan ==> p in localPeers
    ensures isRemoval ==> churned !in plan
  {
    var peers := ChurnPeers(localPeers, churned, isRemoval);
    forall p | p in plan
      ensures p in localPeers && (isRemoval ==> p != churned)
    {
      var k :| k in plan[p];
      assert KeyTarget(v, peers, k, churned, isRemoval) == Some(p);
      var group := Group(v, peers, k).value;
      assert ClosestSorted(v, peers, k, CLOSE_GROUP_SIZE + 1, group);
      if isRemoval {
        assert p == group[|group| - 1] && p != churned;
        assert p in peers;
      } else {
        assert p == churned && churned in group;
        var i :| 0 <= i < |group| && group[i] == churned;
        assert group[i] in peers;
      }
    }
  }

  /**
   * The joining-peer scenario: a node that holds one record `key`, whose sorted
   * group contains the joining peer `d` but not as its farthest member, plans
   * exactly one notice, to `d`, naming `key`.
   */
  lemma JoinScenarioPlan(v: PeerView, peers: seq<PeerId>, key: NetworkAddress, d: PeerId,
                         plan: map<PeerId, set<NetworkAddress>>)
    requires Group(v, peers, key).Ok?
    requires var g := Group(v, peers, key).value; d in g && g[|g| - 1] != d
    requires AllGroupsOk(v, peers, {key}) && IsPlan(v, peers, {key}, d, false, plan)
    ensures plan == map[d := {key}]
  {
    var expected := map[d := {key}];
    assert IsPlan(v, peers, {key}, d, false, expected);
    PlanUnique(v, peers, {key}, d, false, plan, expected);
  }

  /**
   * A removal whose removed peer `x` sits inside the group of `key` but is not
   * its farthest member plans one notice, to that farthest member; when `x` is
   * the farthest, nothing is planned.
   */
  lemma RemovalScenarioPlan(v: PeerView, peers: seq<PeerId>, key: NetworkAddress, x: PeerId,
                            plan: map<PeerId, set<NetworkAddress>>)
    requires Group(v, peers, key).Ok? && x in Group(v, peers, key).value
    requires AllGroupsOk(v, peers, {key}) && IsPlan(v, peers, {key}, x, true, plan)
    ensures var g := Group(v, peers, key).value;
      plan == if g[|g| - 1] != x then map[g[|g| - 1] := {key}] else map[]
  {
    var g := Group(v, peers, key).value;
    var expected: map<PeerId, set<NetworkAddress>> := if g[|g| - 1] != x then map[g[|g| - 1] := {key}] else map[];
    assert IsPlan(v, peers, {key}, x, true, expected);
    PlanUnique(v, peers, {key}, x, true, plan, expected);
  }

  /** Under a correct sort, the interval sweep's threshold holds iff at least `K_VALUE` peers are known. */
  lemma IntervalThreshold(v: PeerView, peers: seq<PeerId>, target: NetworkAddress)
    requires SortsByDistance(v)
    requires v.sortPeersByAddress(peers, target, K_VALUE).Ok?
    ensures |v.sortPeersByAddress(peers, target, K_VALUE).value| >= K_VALUE <==> |peers| >= K_VALUE
  {
    assert ClosestSorted(v, peers, target, K_VALUE, v.sortPeersByAddress(peers, target, K_VALUE).value);
  }

  /**
   * `try_interval_replication`: sort the local peers by distance to us, and if at
   * least `K_VALUE` come back, send the whole local key set to each of them in
   * that order, stopping at the first send error.
   */
  method TryIntervalReplication(
    v: PeerView, ourPeerId: PeerId,
    localPeers: Result<seq<PeerId>, NetworkError>,
    localRecords: Result<set<NetworkAddress>, NetworkError>,
    send: (PeerId, Request) -> Result<(), NetworkError>)
    returns (r: Result<(), NetworkError>, sent: seq<Outbound>)
    ensures localPeers.Err? ==> r == Err(localPeers.error) && sent == []
    ensures localPeers.Ok? ==>
      var closest := v.sortPeersByAddress(localPeers.value, PeerAddress(ourPeerId), K_VALUE);
      && (closest.Err? ==> r == Err(closest.error) && sent == [])
      && (closest.Ok? && |closest.value| < K_VALUE ==> r == Ok(()) && sent == [])
      && (closest.Ok? && |closest.value| >= K_VALUE && localRecords.Err? ==> r == Err(localRecords.error) && sent == [])
      && (closest.Ok? && |closest.value| >= K_VALUE && localRecords.Ok? ==>
        var notice := CmdRequest(Replicate(PeerAddress(ourPeerId), localRecords.value));
        && |sent| <= |closest.value|
        && (forall i :: 0 <= i < |sent| ==> sent[i] == Outbound(closest.value[i], notice))
        && (forall i :: 0 <= i < |sent| ==> send(closest.value[i], notice).Ok?)
        && (r.Ok? <==> |sent| == |closest.value|)
        && (r.Err? ==> send(closest.value[|sent|], notice) == Err(r.error)))
  {
    if localPeers.Err? {
      return Err(localPeers.error), [];
    }
    var ourAddress := PeerAddress(ourPeerId);
    var sorted := v.sortPeersByAddress(localPeers.value, ourAddress, K_VALUE);
    if sorted.Err? {
      return Err(sorted.error), [];
    }
    var closestToUs := sorted.value;
    if |closestToUs| < K_VALUE {
      return Ok(()), [];
    }
    if localRecords.Err? {
      return Err(localRecords.error), [];
    }
    var allRecords := localRecords.value;
    sent := [];
    for i := 0 to |closestToUs|
      invariant |sent| == i
      invariant forall j :: 0 <= j < i ==> sent[j] == Outbound(closestToUs[j], CmdRequest(Replicate(ourAddress, allRecords)))
      invariant forall j :: 0 <= j < i ==> send(closestToUs[j], CmdRequest(Replicate(ourAddress, allRecords))).Ok?
    {
      var out := SendReplicateCmd(send, ourAddress, closestToUs[i], allRecords);
      if out.Err? {
        return Err(out.error), sent;
      }
      sent := sent + [out.value];
    }
    r := Ok(());
  }

  /** Where a fetched record came from. */
  datatype FetchSource = Direct | FromNetwork(quorum: Quorum)

  /** One fetch task: its request, the source it used, and what it hands to `store_prepaid_record`. */
  datatype FetchTask = FetchTask(
    holder: PeerId, key: RecordKey, request: Request, source: FetchSource,
    record: Result<Record, NetworkError>)

  /** The record content of a direct reply: only a successful `GetReplicatedRecord` carries one. */
  function DirectContent(reply: Result<Response, NetworkError>): (c: Option<seq<byte>>)
    ensures c.Some? <==>
      reply.Ok? && reply.value.QueryResp? && reply.value.query.GetReplicatedRecordResponse?
      && reply.value.query.result.Ok?
    ensures c.Some? ==> c.value == reply.value.query.result.value.1
  {
    match reply
    case Err(_) => None
    case Ok(resp) =>
      match resp
      case QueryResp(GetReplicatedRecordResponse(result)) =>
        (match result
         case Ok(content) => Some(content.1)
         case Err(_) => None)
      case _ => None
  }

  /**
   * The body of one spawned fetch task: ask the holder directly, and fall back
   * to a `Majority` get from the network in every other case.
   */
  function FetchOne(
    requester: NetworkAddress, holder: PeerId, key: RecordKey,
    sendRequest: (Request, PeerId) -> Result<Response, NetworkError>,
    getRecordFromNetwork: (RecordKey, Quorum) -> Result<Record, NetworkError>): (t: FetchTask)
    ensures t.holder == holder && t.key == key
    ensures t.request == QueryRequest(GetReplicatedRecord(requester, FromRecordKey(key)))
    ensures t.source == Direct <==> DirectContent(sendRequest(t.request, holder)).Some?
    ensures t.source == Direct ==> t.record == Ok(Record(key, DirectContent(sendRequest(t.request, holder)).value))
    ensures t.source != Direct ==> t.source == FromNetwork(Majority) && t.record == getRecordFromNetwork(key, Majority)
  {
    var request := QueryRequest(GetReplicatedRecord(requester, FromRecordKey(key)));
    match DirectContent(sendRequest(request, holder))
    case Some(content) => FetchTask(holder, key, request, Direct, Ok(Record(key, content)))
    case None => FetchTask(holder, key, request, FromNetwork(Majority), getRecordFromNetwork(key, Majority))
  }

  /**
   * `fetch_replication_keys_without_wait`: one task per (holder, key) pair; the
   * call itself always succeeds, whatever its tasks do.
   */
  method FetchReplicationKeysWithoutWait(
    ourPeerId: PeerId, keysToFetch: seq<(PeerId, RecordKey)>,
    sendRequest: (Request, PeerId) -> Result<Response, NetworkError>,
    getRecordFromNetwork: (RecordKey, Quorum) -> Result<Record, NetworkError>)
    returns (r: Result<(), NetworkError>, tasks: seq<FetchTask>)
    ensures r == Ok(())
    ensures |tasks| == |keysToFetch|
    ensures forall i :: 0 <= i < |tasks| ==>
      tasks[i] == FetchOne(PeerAddress(ourPeerId), keysToFetch[i].0, keysToFetch[i].1, sendRequest, getRecordFromNetwork)
  {
    tasks := [];
    for i := 0 to |keysToFetch|
      invariant |tasks| == i
      invariant forall j :: 0 <= j < i ==>
        tasks[j] == FetchOne(PeerAddress(ourPeerId), keysToFetch[j].0, keysToFetch[j].1, sendRequest, getRecordFromNetwork)
    {
      var (holder, key) := keysToFetch[i];
      var requester := PeerAddress(ourPeerId);
      tasks := tasks + [FetchOne(requester, holder, key, sendRequest, getRecordFromNetwork)];
    }
    r := Ok(());
  }
}
