/** Who is in the ensemble: promotions, rolling restarts, scaling down and up again. */
module Membership {
  import opened Options
  import opened Text
  import opened Calls
  import opened Claims
  import opened Reconcile
  import opened ZuTool
  import opened PodScripts
  import opened Volumes

  // ----- What a probe reads -----

  /** A member with the details it registered. */
  datatype Peer = Peer(id: nat, address: string, role: Role, clientPort: int)

  function AsServer(p: Peer): Server {
    Server(p.id, Details(p.address, p.role, p.clientPort))
  }

  function PeerLines(peers: seq<Peer>): seq<string> {
    if peers == [] then [] else [ServerLine(AsServer(peers[0]))] + PeerLines(peers[1..])
  }

  ghost predicate DistinctPeers(peers: seq<Peer>) {
    && (forall i | 0 <= i < |peers| :: '=' !in peers[i].address)
    && (forall i, j | 0 <= i < j < |peers| :: peers[i].id != peers[j].id)
  }

  lemma NoServerInside(n: nat, i: nat)
    requires 1 <= i < 7 + |Itoa(n)|
    ensures ("server." + Itoa(n))[i] != 's'
  {
    assert i >= 7 ==> IsDigit(("server." + Itoa(n))[i]);
  }

  lemma GrepFindsOwn(s: Server)
    ensures GrepServer(ServerLine(s), s.id)
  {
    var line := ServerLine(s);
    assert line == "server." + Itoa(s.id) + "=" + s.details;
    assert line[..6] == "server";
    assert line[7..7 + |Itoa(s.id) + "="|] == Itoa(s.id) + "=";
    assert OccursAt(line, "server", 0);
  }

  /** A text with an equals sign at its end is found only where the line has its one. */
  lemma FoundAtKeyEnd(key: string, details: string, text: string, i: nat)
    requires '=' !in key && '=' !in details && OccursAt(key + "=" + details, text + "=", i)
    ensures i + |text| == |key| && key[i..] == text
  {
    var line, end := key + "=" + details, i + |text|;
    assert line[end] == (text + "=")[|text|] == '=';
    assert end == |key|;
    assert text == (text + "=")[..|text|] == line[i..end] == key[i..];
  }

  /** The pattern matches the line of exactly that id, although its dot matches anything. */
  lemma GrepFindsExactly(s: Server, id: nat)
    requires '=' !in s.details
    ensures GrepServer(ServerLine(s), id) <==> s.id == id
  {
    var key := "server." + Itoa(s.id);
    var line := key + "=" + s.details;
    ServerKey(s.id);
    if GrepServer(line, id) {
      var i :| 0 <= i <= |line| && OccursAt(line, "server", i) && OccursAt(line, Itoa(id) + "=", i + 7);
      FoundAtKeyEnd(key, s.details, Itoa(id), i + 7);
      assert key[i] == line[i] == "server"[0];
      if i > 0 {
        NoServerInside(s.id, i);
      }
      assert key[7..] == Itoa(s.id);
      ItoaInjective(id, s.id);
    }
    GrepFindsOwn(s);
  }

  lemma DetailsArePlain(p: Peer)
    requires '=' !in p.address
    ensures '=' !in AsServer(p).details
  {
    var word, port := RoleWord(p.role), Itoa(p.clientPort);
    assert '=' !in Digits(if p.clientPort < 0 then -p.clientPort else p.clientPort);
    assert '=' !in port && '=' !in word;
    Concatenated(p.address, ":", '=');
    Concatenated(p.address + ":", word, '=');
    Concatenated(p.address + ":" + word, ";", '=');
    Concatenated(p.address + ":" + word + ";", port, '=');
  }

  lemma Concatenated(a: string, b: string, c: char)
    requires c !in a && c !in b
    ensures c !in a + b
  {
  }

  lemma {:induction false} MatchingExactly(peers: seq<Peer>, id: nat)
    requires DistinctPeers(peers)
    ensures (forall i | 0 <= i < |peers| :: peers[i].id != id) ==> Matching(PeerLines(peers), id) == []
    ensures forall i | 0 <= i < |peers| && peers[i].id == id ::
              Matching(PeerLines(peers), id) == [ServerLine(AsServer(peers[i]))]
    decreases |peers|
  {
    if peers != [] {
      DetailsArePlain(peers[0]);
      GrepFindsExactly(AsServer(peers[0]), id);
      MatchingExactly(peers[1..], id);
      assert PeerLines(peers)[1..] == PeerLines(peers[1..]);
    }
  }

  lemma WordInLine(p: Peer, word: string)
    requires |word| > 1 && '=' !in word && ':' !in word && ';' !in word && word[0] in {'p', 'o'}
    ensures Contains(ServerLine(AsServer(p)), word) <==> Contains(p.address, word) || Contains(RoleWord(p.role), word)
  {
    var key := "server." + Itoa(p.id);
    assert ServerLine(AsServer(p)) == key + ['='] + AsServer(p).details;
    ContainsAcrossSeparator(key, '=', AsServer(p).details, word);
    assert word[0] !in key;
    AbsentLetter(key, word);
    WordInDetails(p.address, p.role, p.clientPort, word);
  }

  /** The role the probe reads off one server's line: the registered one, except that an address
      mentioning a participant makes any server look like one. */
  function RoleRead(p: Peer): Role {
    if Contains(p.address, "participant") then Participant else p.role
  }

  lemma MentionsOne(line: string, word: string)
    ensures Mentions([line], word) <==> Contains(line, word)
  {
    assert [line][0] == line;
  }

  lemma ReadsParticipant(p: Peer)
    ensures Mentions([ServerLine(AsServer(p))], "participant") <==> RoleRead(p).Participant?
  {
    MentionsOne(ServerLine(AsServer(p)), "participant");
    WordInLine(p, "participant");
    WordsApart();
    WholeContains("participant");
  }

  lemma ReadsObserver(p: Peer)
    requires p.role.Observer?
    ensures Mentions([ServerLine(AsServer(p))], "observer")
  {
    MentionsOne(ServerLine(AsServer(p)), "observer");
    WordInLine(p, "observer");
    WholeContains("observer");
  }

  lemma ReadsRole(peers: seq<Peer>, i: nat)
    requires DistinctPeers(peers) && i < |peers|
    ensures RoleOf(Matching(PeerLines(peers), peers[i].id)) == Some(RoleRead(peers[i]))
  {
    MatchingExactly(peers, peers[i].id);
    ReadsParticipant(peers[i]);
    if peers[i].role.Observer? {
      ReadsObserver(peers[i]);
    }
  }

  /** The probe of a running pod whose server keeps the given members in its dynamic configuration. */
  ghost predicate SeesPeers(s: Site, p: Probe, id: nat, peers: seq<Peer>) {
    && p.answers && p.sees && ServerId(p.host) == Some(id) && s.disk.myid == Some(Itoa(id)) && DistinctPeers(peers)
    && s.disk.dir.Holding? && LinkOf(s.disk.dir.lines).Some?
    && LinkOf(s.disk.dir.lines).value in p.files
    && p.files[LinkOf(s.disk.dir.lines).value] == PeerLines(peers)
  }

  /** What a probe of a server that reads its role so does to the ensemble. A promotion touches no other
      server. Its own role becomes participant exactly when the add took effect; the server is lost
      exactly when the removal took effect and the add did not, although the probe succeeds. */
  function Promoted(m: Members, id: int, role: Role, p: Probe): (after: Members)
    ensures forall j | j != id :: (j in after <==> j in m) && (j in m ==> after[j] == m[j])
    ensures role.Participant? ==> after == m
    ensures role.Observer? && id in m ==> (id !in after <==> p.remove != Refused && p.add == Refused)
    ensures role.Observer? && id in m && m[id] == Observer ==>
              (id in after && after[id] == Participant <==> p.add != Refused)
  {
    if role.Participant? then m else Enter(Leave(m, id, p.remove), id, Participant, p.add)
  }

  /** A server that is not listed is not ready, and nothing happens. A listed one is ready, and promoted
      unless it reads participant, so that a repeated probe does nothing; an observer whose address
      mentions a participant is wrongly taken for one. */
  lemma ReadyExactly(s: Site, p: Probe, id: nat, peers: seq<Peer>)
    requires SeesPeers(s, p, id, peers)
    ensures (forall i | 0 <= i < |peers| :: peers[i].id != id) ==> Probed(s, p) == (s.members, false)
    ensures forall i | 0 <= i < |peers| && peers[i].id == id ::
              Probed(s, p) == (Promoted(s.members, id, RoleRead(peers[i]), p), true)
  {
    MatchingExactly(peers, id);
    forall i | 0 <= i < |peers| && peers[i].id == id
      ensures ReadRole(s.disk, id, p.files) == Some(RoleRead(peers[i]))
    {
      ReadsRole(peers, i);
    }
    if forall i | 0 <= i < |peers| :: peers[i].id != id {
      assert ReadRole(s.disk, id, p.files) == RoleOf([]) == None;
    }
  }

  // ----- Teardown -----

  predicate Int32(i: int) { -0x8000_0000 <= i < 0x8000_0000 }

  lemma PublishedSize(size: int)
    requires Int32(size)
    ensures Atoi(RunSync(SizeData(size))) == Parsed(size, false)
  {
    assert '=' !in "CLUSTER_SIZE";
    SyncReadsBack("CLUSTER_SIZE", size);
    assert "CLUSTER_SIZE" + "=" + Itoa(size) == SizeData(size);
    AtoiItoa(size);
  }

  /** A server of ours: its id is on its disk or nothing is. */
  ghost predicate Owns(d: Disk, id: nat) {
    id <= 0x8000_0000 && d.myid in {None, Some(""), Some(Itoa(id))}
  }

  /** A stop removes this server exactly when its id is on disk and beyond the published size. */
  lemma TeardownExactly(s: Site, t: Stop, id: nat, size: int)
    requires Owns(s.disk, id) && Int32(size) && t.data in {None, Some(SizeData(size))}
    ensures Stopped(s, t)
            == if s.disk.myid == Some(Itoa(id)) && t.data.Some? && size < id
               then Leave(s.members, id, t.remove) else s.members
  {
    PublishedSize(size);
    AtoiItoa(id);
    assert Itoa(id) != "";
  }

  lemma HostServerId(cluster: string, ordinal: nat)
    ensures ServerId(cluster + "-" + Itoa(ordinal)) == Some(ordinal + 1)
  {
    var digits := Itoa(ordinal);
    LastIndexOfSeparator(cluster, '-', digits);
    assert (cluster + "-" + digits)[|cluster| + 1..] == digits;
    ValueOfDigits(ordinal);
  }

  /** The collected volumes and the removed members coincide: a claim is an orphan exactly when stopping
      its pod, with that size published, removes the server it belongs to. */
  lemma OrphansAreTheRemoved(cluster: string, ordinal: nat, replicas: int, members: Members, d: Disk)
    requires Ordinal(ordinal) && Int32(replicas) && ordinal + 1 in members && d.myid == Some(Itoa(ordinal + 1))
    ensures ServerId(cluster + "-" + Itoa(ordinal)) == Some(ordinal + 1)
    ensures ordinal + 1 !in Stopped(Site(d, members), Stop(Some(SizeData(replicas)), Done)) <==>
            IsPVCOrphan(ClaimName(cluster, ordinal), replicas)
  {
    OrphanExactlyOutOfRange(cluster, ordinal, replicas);
    HostServerId(cluster, ordinal);
    TeardownExactly(Site(d, members), Stop(Some(SizeData(replicas)), Done), ordinal + 1, replicas);
  }

  // ----- Runs of the cluster -----

  /** The ensemble, and each server's volume. */
  datatype Cluster = Cluster(members: Members, disks: map<nat, Disk>)
  {
    function Disk(id: nat): Disk { if id in disks then disks[id] else BLANK }

    function At(id: nat): Site { Site(Disk(id), members) }
  }

  datatype Event =
    | Starts(id: nat, b: Boot) | Probes(id: nat, p: Probe) | Stops(id: nat, t: Stop)
    | LinkMoves(id: nat, line: string)

  function Next(c: Cluster, ev: Event): Cluster {
    match ev
    case Starts(id, b) => var r := Started(c.At(id), b); Cluster(r.members, c.disks[id := r.disk])
    case Probes(id, p) => c.(members := Probed(c.At(id), p).0)
    case Stops(id, t) => c.(members := Stopped(c.At(id), t))
    case LinkMoves(id, line) => c.(disks := c.disks[id := After(c.At(id), LinkMoved(line)).disk])
  }

  function Run(c: Cluster, evs: seq<Event>): Cluster
    decreases |evs|
  {
    if evs == [] then c else Run(Next(c, evs[0]), evs[1..])
  }

  /** Each pod runs under its own name, with a published size that does not change. */
  ghost predicate AtSize(ev: Event, size: int) {
    ev.id <= 0x8000_0000 &&
    match ev
    case Starts(id, b) => ServerId(b.host) == Some(id)
    case Probes(id, p) => ServerId(p.host) == Some(id)
    case Stops(id, t) => t.data in {None, Some(SizeData(size))}
    case LinkMoves(_, _) => true
  }

  ghost predicate AllAtSize(evs: seq<Event>, size: int) {
    Int32(size) && forall i | 0 <= i < |evs| :: AtSize(evs[i], size)
  }

  ghost predicate AllOwn(c: Cluster) {
    forall id | id in c.disks :: Owns(c.disks[id], id)
  }

  /** A promotion whose removal took effect and whose add did not. */
  predicate Interrupted(ev: Event, id: int) {
    ev.Probes? && ev.id == id && ev.p.remove != Refused && ev.p.add == Refused
  }

  lemma OwnNext(c: Cluster, ev: Event, size: int)
    requires AllOwn(c) && AtSize(ev, size)
    ensures AllOwn(Next(c, ev))
  {
    if ev.Starts? {
      IdAfterStart(c.At(ev.id), ev.b, ev.id);
    }
  }

  lemma MembersAfterStop(c: Cluster, id: nat, t: Stop, size: int)
    requires AllOwn(c) && Int32(size) && AtSize(Stops(id, t), size)
    ensures var after := Next(c, Stops(id, t)).members;
            after == c.members || (size < id && t.data.Some? && t.remove != Refused && after == c.members - {id as int})
  {
    TeardownExactly(c.At(id), t, id, size);
  }

  /** One event at a constant size never takes a server within that size out of the ensemble, except a
      promotion of that very server that was interrupted. */
  lemma NextConserves(c: Cluster, ev: Event, size: int, id: int)
    requires AllOwn(c) && Int32(size) && AtSize(ev, size) && id <= size && id in c.members && !Interrupted(ev, id)
    ensures id in Next(c, ev).members
  {
    match ev
    case Starts(j, b) => MembersAfterStart(c.At(j), b, j);
    case Stops(j, t) => MembersAfterStop(c, j, t, size);
    case _ =>
  }

  /** Rolling restarts conserve the ensemble: over any run of starts, kills, probes and stops with a
      constant published size, whatever fails, a member within that size stays one unless a promotion
      of it was interrupted. */
  lemma {:induction false} RunConserves(c: Cluster, evs: seq<Event>, size: int, id: int)
    requires AllOwn(c) && AllAtSize(evs, size) && id <= size && id in c.members
    requires forall i | 0 <= i < |evs| :: !Interrupted(evs[i], id)
    ensures id in Run(c, evs).members
    decreases |evs|
  {
    if evs != [] {
      NextConserves(c, evs[0], size, id);
      OwnNext(c, evs[0], size);
      RunConserves(Next(c, evs[0]), evs[1..], size, id);
    }
  }

  // ----- Scaling down -----

  /** A removal of this server that took effect. */
  predicate Removal(ev: Event, size: int, id: int) {
    ev.Stops? && ev.id == id && size < id && ev.t.data.Some? && ev.t.remove != Refused
  }

  predicate RemovedIn(evs: seq<Event>, size: int, id: int) {
    exists i | 0 <= i < |evs| :: Removal(evs[i], size, id)
  }

  ghost predicate AllProvisioned(c: Cluster) {
    forall id | id in c.disks :: Provisioned(c.disks[id], id)
  }

  /** The probe finds this server an observer, and promotes it. */
  predicate Promotes(d: Disk, p: Probe) {
    var id := ServerId(p.host);
    p.answers && p.sees && id.Some? && ReadRole(d, id.value, p.files) == Some(Observer)
  }

  /** A probe that promotes is not interrupted, and only promotes a member: the file its server keeps is
      no older than the server's last removal. */
  ghost predicate Regular(c: Cluster, ev: Event) {
    ev.Probes? && Promotes(c.Disk(ev.id), ev.p) ==> !Interrupted(ev, ev.id) && ev.id as int in c.members
  }

  /** Pods with volumes stop, start and are probed. */
  ghost predicate AllRegular(c: Cluster, evs: seq<Event>)
    decreases |evs|
  {
    evs == [] || (evs[0].id in c.disks && Regular(c, evs[0]) && AllRegular(Next(c, evs[0]), evs[1..]))
  }

  /** Of the servers that stay members, roles only rise from observer to participant. */
  ghost predicate RolesRise(m: Members, n: Members) {
    forall id | id in n :: id in m && (n[id] == m[id] || n[id] == Participant)
  }

  /** One event, exactly: who is a member afterwards, interrupted and outdated promotions included. */
  lemma NextMembers(c: Cluster, ev: Event, size: int)
    requires AllOwn(c) && AllProvisioned(c) && Int32(size) && AtSize(ev, size) && ev.id in c.disks
    ensures var d := Next(c, ev);
            var promotes := ev.Probes? && Promotes(c.Disk(ev.id), ev.p);
            && AllOwn(d) && AllProvisioned(d) && d.disks.Keys == c.disks.Keys
            && (forall id | !(promotes && ev.id == id) ::
                  (id in d.members <==> id in c.members && !Removal(ev, size, id))
                  && (id in d.members ==> d.members[id] == c.members[id]))
            && (promotes ==> (ev.id as int in d.members <==>
                  ev.p.add != Refused || (ev.id as int in c.members && ev.p.remove == Refused)))
            && (promotes && ev.p.add != Refused ==> d.members[ev.id] == Participant)
            && (promotes && ev.p.add == Refused && ev.id as int in d.members ==> d.members[ev.id] == c.members[ev.id])
  {
    OwnNext(c, ev, size);
    match ev
    case Starts(j, b) => ProvisionedStart(c.At(j), b, j);
    case Stops(j, t) => TeardownExactly(c.At(j), t, j, size);
    case _ =>
  }

  lemma NextScales(c: Cluster, ev: Event, size: int)
    requires AllOwn(c) && AllProvisioned(c) && Int32(size) && AtSize(ev, size) && ev.id in c.disks && Regular(c, ev)
    ensures var d := Next(c, ev);
            && AllOwn(d) && AllProvisioned(d) && d.disks.Keys == c.disks.Keys && RolesRise(c.members, d.members)
            && (forall id :: id in d.members <==> id in c.members && !Removal(ev, size, id))
  {
    NextMembers(c, ev, size);
  }

  lemma RemovedFirst(evs: seq<Event>, size: int, id: int)
    requires evs != []
    ensures RemovedIn(evs, size, id) <==> Removal(evs[0], size, id) || RemovedIn(evs[1..], size, id)
  {
    if i :| 0 <= i < |evs| && Removal(evs[i], size, id) {
      assert i > 0 ==> Removal(evs[1..][i - 1], size, id);
    }
    if i :| 0 <= i < |evs[1..]| && Removal(evs[1..][i], size, id) {
      assert Removal(evs[i + 1], size, id);
    }
  }

  /** While pods of provisioned volumes stop, start and are probed in any order at a constant size, the
      members that leave are exactly those a stop removed; the others at most rise to participants. */
  lemma {:induction false} ScalesExactly(c: Cluster, evs: seq<Event>, size: int)
    requires AllOwn(c) && AllProvisioned(c) && AllAtSize(evs, size) && AllRegular(c, evs)
    ensures var d := Run(c, evs);
            && RolesRise(c.members, d.members)
            && forall id :: id in d.members <==> id in c.members && !RemovedIn(evs, size, id)
    decreases |evs|
  {
    if evs != [] {
      NextScales(c, evs[0], size);
      ScalesExactly(Next(c, evs[0]), evs[1..], size);
      forall id
        ensures RemovedIn(evs, size, id) <==> Removal(evs[0], size, id) || RemovedIn(evs[1..], size, id)
      {
        RemovedFirst(evs, size, id);
      }
    }
  }

  /** A scale-down from `a` to `b` takes the members 1..a to exactly 1..b if and only if every server
      beyond `b` was stopped with a removal that took effect. */
  lemma ScaleDownExactly(c: Cluster, evs: seq<Event>, a: int, b: int)
    requires AllOwn(c) && AllProvisioned(c) && AllAtSize(evs, b) && AllRegular(c, evs) && b <= a
    requires forall id :: id in c.members <==> 1 <= id <= a
    ensures (forall id :: id in Run(c, evs).members <==> 1 <= id <= b) <==>
            (forall id | b < id <= a && 1 <= id :: RemovedIn(evs, b, id))
  {
    ScalesExactly(c, evs, b);
    if forall id | b < id <= a && 1 <= id :: RemovedIn(evs, b, id) {
      forall id
        ensures id in Run(c, evs).members <==> 1 <= id <= b
      {
        if 1 <= id <= b {
          assert !RemovedIn(evs, b, id);
        }
      }
    }
  }

  // ----- Scaling up again -----

  /** A server that is no member and starts again, with the ensemble in sight and nothing failing,
      becomes one exactly when its volume is not provisioned: a volume kept from before the scale-down
      keeps its server out, and a fresh one, which is what remains after the claim was collected, lets
      it in. */
  lemma RejoinsExactly(s: Site, b: Boot, id: nat)
    requires ServerId(b.host) == Some(id) && id !in s.members && b.sees && b.add == Done
    requires b.steps >= |StartEffects(s.disk, id, b)|
    ensures id in Started(s, b).members <==> !Provisioned(s.disk, id)
    ensures s.disk == BLANK ==> Started(s, b).members == s.members[id := Observer]
  {
    MembersAfterStart(s, b, id);
    assert !Provisioned(s.disk, id) ==> |StartEffects(s.disk, id, b)| > |WriteEffects(id, b.details)|;
  }
}
