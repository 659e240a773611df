/**
 * The computed properties of the web UI's `yt-info` and `yt-channel-card` components:
 * the set of channels the user is a member of, the channel list split into member
 * channels first and the rest after, and the YouTube links.
 *
 * A JavaScript value that may be null or undefined is an `Option`; `None` is falsy.
 */
module MembershipView {
  import opened Wrappers

  /** A Firestore document reference; all the UI reads of it is its path. */
  datatype DocRef = DocRef(path: string)

  /** One element of `channelMemberships`. */
  datatype ChannelEntry = ChannelEntry(path: string, docRef: DocRef, isMember: bool)

  /** The data of a channel document; `ChannelID` is the YouTube channel ID. */
  datatype ChannelDoc = ChannelDoc(channelID: string)

  const ChannelUrlPrefix: string := "https://youtube.com/channel/"

  /** The channel the `yt-info` link falls back to when it has no channel ID. */
  const FallbackChannelID: string := "UCTUHzVzRwN_2x13IWQ9QVNg"

  /** The channel ID a channel link points at. */
  function LinkedChannel(href: string): string
    requires ChannelUrlPrefix <= href
  {
    href[|ChannelUrlPrefix|..]
  }

  /** `yt-info`'s `channelHref`: a link to the given channel, or to the fallback channel. */
  function ChannelHref(channelID: string): (href: string)
    ensures ChannelUrlPrefix <= href
    ensures LinkedChannel(href) == if channelID != "" then channelID else FallbackChannelID
  {
    if channelID != "" then ChannelUrlPrefix + channelID else ChannelUrlPrefix + FallbackChannelID
  }

  /** Two different channel IDs never get the same link. */
  lemma ChannelHrefInjective(a: string, b: string)
    requires a != "" && b != "" && ChannelHref(a) == ChannelHref(b)
    ensures a == b
  {
  }

  /** A missing channel ID yields the very link of the fallback channel. */
  lemma FallbackIndistinguishable()
    ensures ChannelHref("") == ChannelHref(FallbackChannelID)
  {
  }

  /** `yt-channel-card`'s `channelHref`: empty until the document loaded, then its channel's link. */
  function CardChannelHref(doc: Option<ChannelDoc>): (href: string)
    ensures href == "" <==> doc.None?
    ensures doc.Some? ==> ChannelUrlPrefix <= href && LinkedChannel(href) == doc.value.channelID
  {
    if doc.Some? then ChannelUrlPrefix + doc.value.channelID else ""
  }

  /** A loaded card links where `yt-info` links for the same non-empty channel ID. */
  lemma CardMatchesInfo(doc: ChannelDoc)
    requires doc.channelID != ""
    ensures CardChannelHref(Some(doc)) == ChannelHref(doc.channelID)
  {
  }

  /** The paths of the user's memberships; none when `memberships` is falsy. */
  function MemberPaths(memberships: Option<seq<DocRef>>): set<string>
  {
    if memberships.None? then {} else set m | m in memberships.value :: m.path
  }

  /** `memberMap`: each membership's path mapped to `true`, and nothing else. */
  method MemberMap(memberships: Option<seq<DocRef>>) returns (memberMap: map<string, bool>)
    ensures memberMap.Keys == MemberPaths(memberships)
    ensures forall path :: path in memberMap ==> memberMap[path]
  {
    memberMap := map[];
    if memberships.None? {
      return;
    }
    var ms := memberships.value;
    for i := 0 to |ms|
      invariant memberMap.Keys == set m | m in ms[..i] :: m.path
      invariant forall path :: path in memberMap ==> memberMap[path]
    {
      assert ms[..i + 1] == ms[..i] + [ms[i]];
      memberMap := memberMap[ms[i].path := true];
    }
    assert ms[..|ms|] == ms;
  }

  /**
   * The entries for the channels whose membership is `member`, in the order of
   * `channels`: one list of `channelMemberships` before the two are concatenated.
   */
  function Tagged(channels: seq<DocRef>, memberPaths: set<string>, member: bool): (entries: seq<ChannelEntry>)
    decreases |channels|
  {
    if channels == [] then
      []
    else
      var c := channels[|channels| - 1];
      var prefix := Tagged(channels[..|channels| - 1], memberPaths, member);
      if (c.path in memberPaths) == member then prefix + [ChannelEntry(c.path, c, member)] else prefix
  }

  /**
   * Each group holds only entries of its own membership: `isMember` says whether the
   * path is a membership, and the path is the path of the entry's reference.
   */
  lemma {:induction false} TaggedEntries(channels: seq<DocRef>, memberPaths: set<string>, member: bool, k: nat)
    requires k < |Tagged(channels, memberPaths, member)|
    ensures var e := Tagged(channels, memberPaths, member)[k];
            e.isMember == member && (e.path in memberPaths) == member && e.path == e.docRef.path
    decreases |channels|
  {
    var init := channels[..|channels| - 1];
    if k < |Tagged(init, memberPaths, member)| {
      TaggedEntries(init, memberPaths, member, k);
    }
  }

  /** `channelMemberships` of non-null `channels`: the member entries, then the others. */
  function Partition(channels: seq<DocRef>, memberPaths: set<string>): seq<ChannelEntry>
  {
    Tagged(channels, memberPaths, true) + Tagged(channels, memberPaths, false)
  }

  /** `channelMemberships` (with `memberMap` computed from `memberships`). */
  method ChannelMemberships(channels: Option<seq<DocRef>>, memberships: Option<seq<DocRef>>)
    returns (entries: seq<ChannelEntry>)
    ensures channels.None? ==> entries == []
    ensures channels.Some? ==> entries == Partition(channels.value, MemberPaths(memberships))
  {
    var memberOf: seq<ChannelEntry> := [];
    var nonMember: seq<ChannelEntry> := [];
    var memberMap := MemberMap(memberships);
    if channels.None? {
      return [];
    }
    var cs := channels.value;
    ghost var paths := MemberPaths(memberships);
    for i := 0 to |cs|
      invariant memberOf == Tagged(cs[..i], paths, true)
      invariant nonMember == Tagged(cs[..i], paths, false)
    {
      assert cs[..i + 1][..i] == cs[..i];
      var element := cs[i];
      if element.path in memberMap && memberMap[element.path] {
        memberOf := memberOf + [ChannelEntry(element.path, element, true)];
      } else {
        nonMember := nonMember + [ChannelEntry(element.path, element, false)];
      }
    }
    assert cs[..|cs|] == cs;
    entries := memberOf + nonMember;
  }

  /** The document references of a list of entries, in order. */
  function DocRefs(entries: seq<ChannelEntry>): (refs: seq<DocRef>)
    ensures |refs| == |entries|
  {
    seq(|entries|, k requires 0 <= k < |entries| => entries[k].docRef)
  }

  /** The last channel of a non-empty list goes to its own group and leaves the other unchanged. */
  lemma TaggedLast(channels: seq<DocRef>, memberPaths: set<string>)
    requires channels != []
    ensures var init := channels[..|channels| - 1];
            var c := channels[|channels| - 1];
            var e := ChannelEntry(c.path, c, c.path in memberPaths);
            if c.path in memberPaths then
              Tagged(channels, memberPaths, true) == Tagged(init, memberPaths, true) + [e]
              && Tagged(channels, memberPaths, false) == Tagged(init, memberPaths, false)
            else
              Tagged(channels, memberPaths, true) == Tagged(init, memberPaths, true)
              && Tagged(channels, memberPaths, false) == Tagged(init, memberPaths, false) + [e]
  {
  }

  /** Every channel lands in exactly one of the two lists. */
  lemma {:induction false} TaggedLength(channels: seq<DocRef>, memberPaths: set<string>)
    ensures |Tagged(channels, memberPaths, true)| + |Tagged(channels, memberPaths, false)| == |channels|
    decreases |channels|
  {
    if channels != [] {
      TaggedLength(channels[..|channels| - 1], memberPaths);
      TaggedLast(channels, memberPaths);
    }
  }

  /** Together the two lists hold each channel's reference exactly as often as `channels` does. */
  lemma {:induction false} TaggedMultiset(channels: seq<DocRef>, memberPaths: set<string>)
    ensures multiset(DocRefs(Tagged(channels, memberPaths, true))) + multiset(DocRefs(Tagged(channels, memberPaths, false)))
            == multiset(channels)
    decreases |channels|
  {
    if channels != [] {
      var init := channels[..|channels| - 1];
      var c := channels[|channels| - 1];
      var e := ChannelEntry(c.path, c, c.path in memberPaths);
      TaggedMultiset(init, memberPaths);
      TaggedLast(channels, memberPaths);
      assert multiset(channels) == multiset(init) + multiset{c} by {
        assert channels == init + [c];
      }
      var grown := Tagged(init, memberPaths, c.path in memberPaths);
      assert DocRefs(grown + [e]) == DocRefs(grown) + [c];
    }
  }

  /** The partition keeps every channel once: same length, same references. */
  lemma PartitionIsPermutation(channels: seq<DocRef>, memberPaths: set<string>)
    ensures |Partition(channels, memberPaths)| == |channels|
    ensures multiset(DocRefs(Partition(channels, memberPaths))) == multiset(channels)
  {
    TaggedLength(channels, memberPaths);
    TaggedMultiset(channels, memberPaths);
    var yes, no := Tagged(channels, memberPaths, true), Tagged(channels, memberPaths, false);
    assert DocRefs(yes + no) == DocRefs(yes) + DocRefs(no);
  }

  /** An entry is marked as a membership exactly when its path is one of the user's memberships. */
  lemma PartitionMarksMembers(channels: seq<DocRef>, memberPaths: set<string>, k: nat)
    requires k < |Partition(channels, memberPaths)|
    ensures var e := Partition(channels, memberPaths)[k];
            (e.isMember <==> e.path in memberPaths) && e.path == e.docRef.path
  {
    var yes := Tagged(channels, memberPaths, true);
    if k < |yes| {
      TaggedEntries(channels, memberPaths, true, k);
    } else {
      TaggedEntries(channels, memberPaths, false, k - |yes|);
    }
  }

  /** Every member entry comes before every non-member entry. */
  lemma PartitionMembersFirst(channels: seq<DocRef>, memberPaths: set<string>, i: nat, j: nat)
    requires i < j < |Partition(channels, memberPaths)|
    requires !Partition(channels, memberPaths)[i].isMember
    ensures !Partition(channels, memberPaths)[j].isMember
  {
    var yes := Tagged(channels, memberPaths, true);
    if i < |yes| {
      TaggedEntries(channels, memberPaths, true, i);
    }
    TaggedEntries(channels, memberPaths, false, j - |yes|);
  }

  /**
   * Stability: splitting a channel list in two and partitioning each part keeps the
   * order, so each group lists its channels in the order of `channels`.
   */
  lemma {:induction false} TaggedAppend(a: seq<DocRef>, b: seq<DocRef>, memberPaths: set<string>, member: bool)
    ensures Tagged(a + b, memberPaths, member) == Tagged(a, memberPaths, member) + Tagged(b, memberPaths, member)
    decreases |b|
  {
    if b == [] {
      assert a + b == a;
    } else {
      assert (a + b)[..|a + b| - 1] == a + b[..|b| - 1];
      assert (a + b)[|a + b| - 1] == b[|b| - 1];
      TaggedAppend(a, b[..|b| - 1], memberPaths, member);
    }
  }

  /** A channel taken on its own lands in the group its membership says, and only there. */
  lemma TaggedSingle(c: DocRef, memberPaths: set<string>, member: bool)
    ensures Tagged([c], memberPaths, member)
            == if (c.path in memberPaths) == member then [ChannelEntry(c.path, c, member)] else []
  {
  }

}
