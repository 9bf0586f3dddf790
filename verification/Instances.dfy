/** One failing input for each property that holds only under a condition. */
module Instances {
  import opened Options
  import opened Text
  import opened Calls
  import opened ClusterSpec
  import opened DefaultingProperties
  import opened ZuTool
  import opened Claims
  import opened PodScripts
  import opened Volumes
  import opened Membership

  /** A tick of 2^62 and no session timeout: 20 ticks are zero in 64 bits, so what defaulting fills in is
      missing again. */
  lemma WrappedTick(s: Spec, name: string)
    requires s.conf.tickTime == 0x4000_0000_0000_0000 && s.conf.maxSessionTimeout == 0
    ensures Lacks(Defaulted(s, name)) && DefaultedConfig(s.conf).maxSessionTimeout == 0
  {
    DefaultingIsAFixpoint(s, name);
    WrapsToZero(s.conf.tickTime);
  }

  /** The storage type is read in any case of its letters. */
  lemma EphemeralInAnyCase()
    ensures IsEphemeral("ephemeral") && IsEphemeral("Ephemeral") && IsEphemeral("EPHEMERAL")
    ensures !IsEphemeral("persistence") && !IsEphemeral("")
  {
  }

  /** The pod of the second server, and the one line about it in the file its configuration links to. */
  function Host(): string { "zk" + "-" + Itoa(1) }

  function Complete(): Disk { Disk(Some(Itoa(2)), Some([]), Holding([LINK_KEY])) }

  function Asked(address: string, add: Fate): PodScripts.Probe {
    PodScripts.Probe(Host(), true, true, map["" := PeerLines([Peer(2, address, Observer, 2181)])], Done, add)
  }

  lemma LinkIsRead()
    ensures LinkOf([LINK_KEY]) == Some("")
  {
    WholeContains(LINK_KEY);
    assert [LINK_KEY][0] == LINK_KEY && LINK_KEY[|LINK_KEY|..] == "";
  }

  lemma AskedExactly(m: Members, address: string, add: Fate)
    requires '=' !in address
    ensures var p := Asked(address, add);
            Probed(Site(Complete(), m), p) == (Promoted(m, 2, RoleRead(Peer(2, address, Observer, 2181)), p), true)
  {
    var peers := [Peer(2, address, Observer, 2181)];
    LinkIsRead();
    HostServerId("zk", 1);
    ReadyExactly(Site(Complete(), m), Asked(address, add), 2, peers);
    assert peers[0].id == 2;
  }

  lemma PlainAddress()
    ensures !Contains("zk-1", "participant") && '=' !in "zk-1"
  {
  }

  /** The removal takes effect and the add does not: the second server is gone, and the probe succeeds. */
  lemma PromotionInterrupted(m: Members)
    ensures Probed(Site(Complete(), m), Asked("zk-1", Refused)) == (m - {2}, true)
  {
    PlainAddress();
    AskedExactly(m, "zk-1", Refused);
  }

  /** An observer of this address is never promoted, and counts as ready. */
  lemma MisreadAddress(m: Members)
    ensures Probed(Site(Complete(), m), Asked("participant-1", Done)) == (m, true)
  {
    AskedExactly(m, "participant-1", Done);
    assert OccursAt("participant-1", "participant", 0);
  }

  /** And a participant of this one is reported as an observer. */
  lemma MisreportedAddress()
    ensures RunGetRole(Details("observer-0", Participant, 2181)) == Observer
  {
    GetRoleExactly("observer-0", Participant, 2181);
    assert OccursAt("observer-0", "observer", 0);
  }

  function Restart(conf: seq<string>, steps: nat): Boot { Boot(Host(), true, Done, [], "", conf, steps) }

  /** A pod killed after one edit of a restart leaves an empty file, without the link it had. */
  lemma CopyCutShort(m: Members, conf: seq<string>)
    ensures Started(Site(Complete(), m), Restart(conf, 1)).disk.dir == Holding([])
  {
    HostServerId("zk", 1);
    var fill := FillStatic(Head(conf) + [LINK_KEY]);
    assert [] + [] + [ClearStatic, fill] == [ClearStatic, fill];
    PlayTwo(Site(Complete(), m), ClearStatic, fill, 1);
  }

  /** A server that was removed stays out when it starts again on its complete volume. */
  lemma RestartStaysOut(conf: seq<string>, steps: nat)
    ensures 2 !in Started(Site(Complete(), map[1 := Participant]), Restart(conf, steps)).members
  {
    HostServerId("zk", 1);
    MembersAfterStart(Site(Complete(), map[1 := Participant]), Restart(conf, steps), 2);
  }

  /** One claim, out of range of one replica: the count test sees nothing to do. */
  lemma OrphanOverlooked(refused: set<string>)
    ensures var claims := [ClaimName("zk", 3)];
            IsPVCOrphan(claims[0], 1) && Collected(claims, 1, refused) == claims
  {
    OrphanExactlyOutOfRange("zk", 3, 1);
  }
}
