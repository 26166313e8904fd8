/**
 * The read-only queries of the white-hat draft. Each reads the storage and writes nothing;
 * the two listings visit their table in ascending key order.
 */
module WhiteHatQuery {
  import opened Wrappers
  import opened Cosmos
  import opened WhiteHatState
  import Ordering
  import WhiteHatExecute

  datatype ConfigResponse = ConfigResponse(contractOwner: Addr, protocolFee: u16, cw721Addr: Addr)

  datatype SubscriberResponse = SubscriberResponse(bountyPct: u16, minBounty: Option<u128>)

  datatype SubscriptionsResponse = SubscriptionsResponse(subscriber: Addr, bountyPct: u16, minBounty: Option<u128>)

  datatype HacksResponse = HacksResponse(date: u64, contractExploited: Addr, totalAmountHacked: u128, bounty: u128, hackerAddr: Addr)

  /** `config`: the stored configuration as it is; fails before `instantiate`. */
  function QueryConfig(st: Storage): (r: Result<ConfigResponse, StdError>)
    reads st
    ensures st.config.None? <==> r.Err?
    ensures r.Err? ==> r.error == NotFound(CONFIG_KIND)
    ensures r.Ok? ==> Config(r.value.contractOwner, r.value.protocolFee, r.value.cw721Addr) == st.config.value
  {
    match st.config
    case None => Err(NotFound(CONFIG_KIND))
    case Some(cfg) => Ok(ConfigResponse(cfg.contractOwner, cfg.protocolFee, cfg.cw721Addr))
  }

  /** `subscriber`: the stored terms of one protected address; fails when it has none. */
  function QuerySubscriber(st: Storage, protectedAddr: string): (r: Result<SubscriberResponse, StdError>)
    reads st
    ensures protectedAddr !in st.subscriptions <==> r.Err?
    ensures r.Err? ==> r.error == NotFound(SUBSCRIPTIONS_KIND)
    ensures r.Ok? ==> Subscription(r.value.bountyPct, r.value.minBounty) == st.subscriptions[protectedAddr]
  {
    if protectedAddr !in st.subscriptions then
      Err(NotFound(SUBSCRIPTIONS_KIND))
    else
      var s := st.subscriptions[protectedAddr];
      Ok(SubscriberResponse(s.bountyPct, s.minBounty))
  }

  /** `subscriptions`: one entry per stored address, with its terms, in ascending address order. */
  function QuerySubscriptions(st: Storage): (r: seq<SubscriptionsResponse>)
    reads st
    ensures |r| == |st.subscriptions|
    ensures forall i :: 0 <= i < |r| ==>
              r[i].subscriber in st.subscriptions
              && st.subscriptions[r[i].subscriber] == Subscription(r[i].bountyPct, r[i].minBounty)
    ensures forall i, j :: 0 <= i < j < |r| ==> AddrLess(r[i].subscriber, r[j].subscriber)
  {
    var reg := st.subscriptions;
    AddrLessIsStrictTotalOrder();
    var keys := Ordering.SortedKeys(reg.Keys, AddrLess);
    SubscriptionEntries(reg, keys)
  }

  function SubscriptionEntries(reg: Registry, keys: seq<Addr>): (r: seq<SubscriptionsResponse>)
    requires forall i :: 0 <= i < |keys| ==> keys[i] in reg
    ensures |r| == |keys|
    ensures forall i :: 0 <= i < |r| ==> r[i] == SubscriptionsResponse(keys[i], reg[keys[i]].bountyPct, reg[keys[i]].minBounty)
  {
    if keys == [] then []
    else [SubscriptionsResponse(keys[0], reg[keys[0]].bountyPct, reg[keys[0]].minBounty)] + SubscriptionEntries(reg, keys[1..])
  }

  /** The keys of the hacks table in the order the table is ranged. */
  function HackKeysAscending(hacks: map<HackKey, Hack>): (keys: seq<HackKey>)
    ensures |keys| == |hacks|
    ensures forall k :: k in keys <==> k in hacks
    ensures forall i, j :: 0 <= i < j < |keys| ==> HackKeyLess(keys[i], keys[j])
  {
    HackKeyLessIsStrictTotalOrder();
    Ordering.SortedKeys(hacks.Keys, HackKeyLess)
  }

  /** The key a ledger record is saved under: its hacker and its date. */
  function HackKeyOf(h: Hack): HackKey
  {
    (h.hackerAddr, h.date)
  }

  /**
   * Saving a ledger record into the keyed table: a record whose (hacker, date) key is
   * already present replaces the stored one, so the table grows only for a new key.
   */
  function SaveHack(hacks: map<HackKey, Hack>, h: Hack): (r: map<HackKey, Hack>)
    ensures r.Keys == hacks.Keys + {HackKeyOf(h)}
    ensures r[HackKeyOf(h)] == h
    ensures forall k :: k in hacks && k != HackKeyOf(h) ==> r[k] == hacks[k]
    ensures |r| == if HackKeyOf(h) in hacks then |hacks| else |hacks| + 1
  {
    hacks[HackKeyOf(h) := h]
  }

  /**
   * Three deposits by one hacker, the first two at the same date and the third later, leave
   * two records: the second replaces the first, and the listing returns it before the third.
   */
  lemma SameKeyDepositsReplace(st: Storage, h1: Hack, h2: Hack, h3: Hack)
    requires HackKeyOf(h1) == HackKeyOf(h2)
    requires h2.hackerAddr == h3.hackerAddr && h2.date < h3.date
    requires st.hacks == SaveHack(SaveHack(SaveHack(map[], h1), h2), h3)
    ensures QueryHacks(st) == [HackResponse(h2), HackResponse(h3)]
  {
    var k2, k3 := HackKeyOf(h2), HackKeyOf(h3);
    var m1 := SaveHack(map[], h1);
    var m2 := SaveHack(m1, h2);
    assert |m1| == 1 && |m2| == 1;
    assert |st.hacks| == 2;
    var keys := HackKeysAscending(st.hacks);
    assert keys[0] in st.hacks && keys[1] in st.hacks;
    assert st.hacks.Keys == {k2, k3};
    AddrLessIrreflexive(h2.hackerAddr);
    assert !HackKeyLess(k3, k2);
    assert keys[0] == k2 && keys[1] == k3;
  }

  /** `hacks`: every ledger record, once each, in ascending (hacker, date) key order. */
  function QueryHacks(st: Storage): (r: seq<HacksResponse>)
    reads st
    ensures |r| == |st.hacks|
    ensures forall i :: 0 <= i < |r| ==>
              var k := HackKeysAscending(st.hacks)[i];
              k in st.hacks && r[i] == HackResponse(st.hacks[k])
  {
    var hacks := st.hacks;
    var keys := HackKeysAscending(hacks);
    HackEntries(hacks, keys)
  }

  function HackEntries(hacks: map<HackKey, Hack>, keys: seq<HackKey>): (r: seq<HacksResponse>)
    requires forall i :: 0 <= i < |keys| ==> keys[i] in hacks
    ensures |r| == |keys|
    ensures forall i :: 0 <= i < |r| ==> r[i] == HackResponse(hacks[keys[i]])
  {
    if keys == [] then [] else [HackResponse(hacks[keys[0]])] + HackEntries(hacks, keys[1..])
  }

  function HackResponse(h: Hack): HacksResponse
  {
    HacksResponse(h.date, h.contractExploited, h.totalAmountHacked, h.bounty, h.hackerAddr)
  }

  /** Whatever `subscribe` stored, `subscriber` reads back. */
  lemma SubscribeThenQuery(st: Storage, before: Registry, addr: Addr, bountyPct: u16, minBounty: Option<u128>)
    requires WhiteHatExecute.SubscribeStep(before, addr, bountyPct, minBounty) == Ok(st.subscriptions)
    ensures QuerySubscriber(st, addr) == Ok(SubscriberResponse(bountyPct, minBounty))
  {
  }

  /** With two subscribers, the one whose address sorts first is listed first. */
  lemma TwoSubscriptionsListing(st: Storage, a: Addr, sa: Subscription, b: Addr, sb: Subscription)
    requires AddrLess(a, b)
    requires st.subscriptions == map[a := sa, b := sb]
    ensures QuerySubscriptions(st) == [SubscriptionsResponse(a, sa.bountyPct, sa.minBounty),
                                       SubscriptionsResponse(b, sb.bountyPct, sb.minBounty)]
  {
    AddrLessIrreflexive(a);
    AddrLessAsymmetric(a, b);
    var r := QuerySubscriptions(st);
    assert |st.subscriptions| == 2;
    assert r[0].subscriber in {a, b} && r[1].subscriber in {a, b};
    assert AddrLess(r[0].subscriber, r[1].subscriber);
  }

  /** The integration test's two subscribers are listed as "subscriber" then "subscriber2". */
  lemma SubscriptionsListingExample(st: Storage)
    requires st.subscriptions == map["subscriber" := Subscription(20, None),
                                     "subscriber2" := Subscription(50, Some(1_000_000))]
    ensures QuerySubscriptions(st) == [SubscriptionsResponse("subscriber", 20, None),
                                       SubscriptionsResponse("subscriber2", 50, Some(1_000_000))]
  {
    PrefixIsLess("subscriber", "2");
    assert "subscriber" + "2" == "subscriber2";
    TwoSubscriptionsListing(st, "subscriber", Subscription(20, None), "subscriber2", Subscription(50, Some(1_000_000)));
  }

  lemma {:induction false} AddrLessAsymmetric(a: Addr, b: Addr)
    requires AddrLess(a, b)
    ensures !AddrLess(b, a)
  {
    if |a| > 0 && |b| > 0 && a[0] == b[0] {
      AddrLessAsymmetric(a[1..], b[1..]);
    }
  }

  lemma {:induction false} PrefixIsLess(a: Addr, b: Addr)
    requires b != []
    ensures AddrLess(a, a + b)
  {
    if a != [] {
      assert (a + b)[1..] == a[1..] + b;
      PrefixIsLess(a[1..], b);
    }
  }
}
