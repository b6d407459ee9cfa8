/** The server browser (frontend/src/page/Servers.tsx): the usage and
    capacity figures of `ServerStats`, grouped by region, and the polling
    step that refreshes the server list. */
module Servers {
  import opened Common

  /** A player on a server's roster; only the roster's length is read. */
  datatype Player = Player(name: string)

  /** The fields of a server snapshot that the statistics read. A missing
      roster or slot count is None. */
  datatype ServerState = ServerState(
    region: string, players: Option<seq<Player>>, max_players: Option<int>)

  /** The slots assumed per server globally, and for a server whose
      `max_players` is missing or 0. */
  const DefaultSlots := 24

  /** `value?.players?.length || 0`. */
  function PlayerCount(s: ServerState): (n: int)
    ensures n >= 0
  {
    match s.players
    case Some(ps) => |ps|
    case None => 0
  }

  /** `value?.max_players || 24`: an absent or zero slot count reads as 24. */
  function Slots(s: ServerState): (n: int)
    ensures n != 0
    ensures s.max_players.Some? && s.max_players.value != 0 ==> n == s.max_players.value
  {
    match s.max_players
    case Some(m) => if m == 0 then DefaultSlots else m
    case None => DefaultSlots
  }

  // ---------------------------------------------------------------------
  // Folds over a server list

  /** The sum of `f` over the servers (lodash `sum` of a `map`). */
  function Total(servers: seq<ServerState>, f: ServerState -> int): int
    decreases |servers|
  {
    if servers == [] then 0
    else Total(servers[..|servers| - 1], f) + f(servers[|servers| - 1])
  }

  /** `use`: the number of players on all servers. */
  function Usage(servers: seq<ServerState>): int {
    Total(servers, PlayerCount)
  }

  /** `cap`: 24 slots for every server, whatever its own slot count. */
  function Capacity(servers: seq<ServerState>): int {
    |servers| * DefaultSlots
  }

  /** Each server adds its player count to the usage, so a list whose
      rosters are all missing or empty has no usage. */
  lemma {:induction false} UsageCountsEveryPlayer(servers: seq<ServerState>)
    ensures Usage(servers) >= 0
    ensures (forall i :: 0 <= i < |servers| ==> PlayerCount(servers[i]) == 0) <==> Usage(servers) == 0
    decreases |servers|
  {
    if servers != [] {
      var init, last := servers[..|servers| - 1], servers[|servers| - 1];
      UsageCountsEveryPlayer(init);
      assert Total(servers, PlayerCount) == Total(init, PlayerCount) + PlayerCount(last);
      assert forall i :: 0 <= i < |init| ==> init[i] == servers[i];
      if Usage(servers) == 0 {
        forall i | 0 <= i < |servers| ensures PlayerCount(servers[i]) == 0 {
          if i < |init| {
            assert servers[i] == init[i];
          }
        }
      }
    }
  }

  /** The global capacity is the per-server default summed over the list. */
  lemma {:induction false} CapacityIsTotal(servers: seq<ServerState>)
    ensures Capacity(servers) == Total(servers, _ => DefaultSlots)
    decreases |servers|
  {
    if servers != [] {
      CapacityIsTotal(servers[..|servers| - 1]);
    }
  }

  /** A sum over a concatenation is the sum of the sums. */
  lemma {:induction false} TotalAppend(a: seq<ServerState>, b: seq<ServerState>, f: ServerState -> int)
    ensures Total(a + b, f) == Total(a, f) + Total(b, f)
    decreases |b|
  {
    if b == [] {
      assert a + b == a;
    } else {
      var b' := b[..|b| - 1];
      TotalAppend(a, b', f);
      assert (a + b)[..|a + b| - 1] == a + b';
    }
  }

  // ---------------------------------------------------------------------
  // Grouping by region

  /** The servers of one region, in the order of the list (the array that
      the reduce builds for that region by appending). */
  function Bucket(servers: seq<ServerState>, region: string): seq<ServerState>
    decreases |servers|
  {
    if servers == [] then []
    else
      var last := servers[|servers| - 1];
      Bucket(servers[..|servers| - 1], region) + (if last.region == region then [last] else [])
  }

  /** The regions that occur in the list. */
  function Regions(servers: seq<ServerState>): set<string> {
    set i | 0 <= i < |servers| :: servers[i].region
  }

  /** A server is in a region's bucket iff it is in the list and has that
      region; so every server is in exactly one bucket, its own region's. */
  lemma {:induction false} BucketMembers(servers: seq<ServerState>, region: string)
    ensures forall s :: s in Bucket(servers, region) <==> s in servers && s.region == region
    decreases |servers|
  {
    if servers != [] {
      var init := servers[..|servers| - 1];
      BucketMembers(init, region);
      assert servers == init + [servers[|servers| - 1]];
    }
  }

  /** A region that does not occur has an empty bucket. */
  lemma {:induction false} BucketOfAbsentRegion(servers: seq<ServerState>, region: string)
    requires region !in Regions(servers)
    ensures Bucket(servers, region) == []
    decreases |servers|
  {
    if servers != [] {
      var init := servers[..|servers| - 1];
      assert Regions(init) <= Regions(servers) by {
        forall j | 0 <= j < |init| ensures init[j].region in Regions(servers) {
          assert init[j] == servers[j];
        }
      }
      BucketOfAbsentRegion(init, region);
    }
  }

  /** Bucketing keeps relative order: the servers of a prefix come before
      those of the rest. */
  lemma {:induction false} BucketAppend(a: seq<ServerState>, b: seq<ServerState>, region: string)
    ensures Bucket(a + b, region) == Bucket(a, region) + Bucket(b, region)
    decreases |b|
  {
    if b == [] {
      assert a + b == a;
    } else {
      var b' := b[..|b| - 1];
      BucketAppend(a, b', region);
      assert (a + b)[..|a + b| - 1] == a + b';
    }
  }

  /** The `reduce` of `ServerStats`: one entry per region, holding that
      region's servers in list order. `keys` lists the regions in the
      order they were first added (`Object.keys`). */
  method GroupByRegion(servers: seq<ServerState>)
    returns (regions: map<string, seq<ServerState>>, keys: seq<string>)
    ensures regions.Keys == Regions(servers)
    ensures forall r :: r in regions ==> regions[r] == Bucket(servers, r)
    ensures NoDuplicates(keys)
    ensures forall r :: r in keys <==> r in regions
  {
    regions, keys := map[], [];
    var i := 0;
    while i < |servers|
      invariant 0 <= i <= |servers|
      invariant regions.Keys == Regions(servers[..i])
      invariant forall r :: r in regions ==> regions[r] == Bucket(servers[..i], r)
      invariant NoDuplicates(keys)
      invariant forall r :: r in keys <==> r in regions
    {
      var cv := servers[i];
      assert servers[..i + 1][..i] == servers[..i];
      assert Regions(servers[..i + 1]) == Regions(servers[..i]) + {cv.region} by {
        assert forall j :: 0 <= j < i ==> servers[..i + 1][j] == servers[..i][j];
      }
      if cv.region !in regions {
        regions := regions[cv.region := []];
        keys := keys + [cv.region];
        BucketOfAbsentRegion(servers[..i], cv.region);
      }
      regions := regions[cv.region := regions[cv.region] + [cv]];
      i := i + 1;
    }
    assert servers[..|servers|] == servers;
  }

  // ---------------------------------------------------------------------
  // Sorting the region keys

  /** `a` sorts no later than `b` in `Array.prototype.sort`'s default order:
      character by character, a proper prefix first. */
  predicate LexLe(a: string, b: string)
    decreases |a|
  {
    if a == [] then true
    else if b == [] then false
    else if a[0] != b[0] then a[0] < b[0]
    else LexLe(a[1..], b[1..])
  }

  lemma {:induction false} LexLeTotal(a: string, b: string)
    ensures LexLe(a, b) || LexLe(b, a)
    decreases |a|
  {
    if a != [] && b != [] && a[0] == b[0] {
      LexLeTotal(a[1..], b[1..]);
    }
  }

  predicate Sorted(s: seq<string>) {
    forall i :: 0 < i < |s| ==> LexLe(s[i - 1], s[i])
  }

  /** Inserts `x` before the first element it sorts no later than. */
  function Insert(x: string, s: seq<string>): (r: seq<string>)
    requires Sorted(s)
    ensures Sorted(r)
    ensures multiset(r) == multiset(s) + multiset{x}
    ensures |r| > 0 && (r[0] == x || (|s| > 0 && r[0] == s[0]))
    ensures NoDuplicates(s) && x !in s ==> NoDuplicates(r)
  {
    if s == [] then [x]
    else if LexLe(x, s[0]) then [x] + s
    else
      LexLeTotal(x, s[0]);
      assert Sorted(s[1..]) by {
        forall i | 0 < i < |s[1..]| ensures LexLe(s[1..][i - 1], s[1..][i]) {
          assert s[1..][i - 1] == s[i] && s[1..][i] == s[i + 1];
        }
      }
      assert s == [s[0]] + s[1..];
      assert NoDuplicates(s) ==> NoDuplicates(s[1..]) by {
        if NoDuplicates(s) {
          forall i, j | 0 <= i < j < |s[1..]| ensures s[1..][i] != s[1..][j] {
            assert s[1..][i] == s[i + 1] && s[1..][j] == s[j + 1];
          }
        }
      }
      var t := Insert(x, s[1..]);
      assert s[0] in multiset(t) <==> s[0] in multiset(s[1..]) + multiset{x};
      [s[0]] + t
  }

  /** `keys.sort()`: the same keys in sorted order. */
  function SortKeys(s: seq<string>): (r: seq<string>)
    ensures Sorted(r)
    ensures multiset(r) == multiset(s)
    ensures NoDuplicates(s) ==> NoDuplicates(r)
  {
    if s == [] then []
    else
      assert s == [s[0]] + s[1..];
      assert NoDuplicates(s) ==> NoDuplicates(s[1..]) by {
        if NoDuplicates(s) {
          forall i, j | 0 <= i < j < |s[1..]| ensures s[1..][i] != s[1..][j] {
            assert s[1..][i] == s[i + 1] && s[1..][j] == s[j + 1];
          }
        }
      }
      var t := SortKeys(s[1..]);
      assert s[0] in multiset(t) <==> s[0] in multiset(s[1..]);
      Insert(s[0], t)
  }

  // ---------------------------------------------------------------------
  // Per-region figures and their conservation

  /** The sum of `f` over the bucket of each key. */
  function RegionTotal(servers: seq<ServerState>, keys: seq<string>, f: ServerState -> int): int {
    if keys == [] then 0 else Total(Bucket(servers, keys[0]), f) + RegionTotal(servers, keys[1..], f)
  }

  /** Appending a server adds its figure to the one key equal to its region. */
  lemma {:induction false} RegionTotalSnoc(p: seq<ServerState>, x: ServerState, keys: seq<string>, f: ServerState -> int)
    requires NoDuplicates(keys)
    ensures RegionTotal(p + [x], keys, f) == RegionTotal(p, keys, f) + (if x.region in keys then f(x) else 0)
  {
    if keys != [] {
      var t := keys[1..];
      assert NoDuplicates(t) by {
        forall i, j | 0 <= i < j < |t| ensures t[i] != t[j] {
          assert t[i] == keys[i + 1] && t[j] == keys[j + 1];
        }
      }
      RegionTotalSnoc(p, x, t, f);
      assert (p + [x])[..|p + [x]| - 1] == p;
      if keys[0] == x.region {
        assert x.region !in t;
        assert Bucket(p + [x], keys[0]) == Bucket(p, keys[0]) + [x];
      } else {
        assert Bucket(p + [x], keys[0]) == Bucket(p, keys[0]);
      }
      assert x.region in keys <==> x.region == keys[0] || x.region in t;
    }
  }

  /** Over no servers every region's figure is 0. */
  lemma {:induction false} RegionTotalEmpty(keys: seq<string>, f: ServerState -> int)
    ensures RegionTotal([], keys, f) == 0
  {
    if keys != [] {
      RegionTotalEmpty(keys[1..], f);
    }
  }

  /** Conservation: summing a figure region by region, over distinct keys
      that cover every region, gives the figure over the whole list. */
  lemma {:induction false} RegionTotalConserved(servers: seq<ServerState>, keys: seq<string>, f: ServerState -> int)
    requires NoDuplicates(keys)
    requires forall r :: r in Regions(servers) ==> r in keys
    ensures RegionTotal(servers, keys, f) == Total(servers, f)
    decreases |servers|
  {
    if servers == [] {
      RegionTotalEmpty(keys, f);
    } else {
      var p, x := servers[..|servers| - 1], servers[|servers| - 1];
      assert servers == p + [x];
      assert Regions(servers) == Regions(p) + {x.region} by {
        forall j | 0 <= j < |p| ensures p[j] == servers[j] { }
      }
      RegionTotalConserved(p, keys, f);
      RegionTotalSnoc(p, x, keys, f);
    }
  }

  /** The figures of one region card. */
  datatype RegionStat = RegionStat(region: string, pSum: int, pMax: int)

  /** What `ServerStats` displays: the global figures and one card per
      region in key order. */
  datatype Stats = Stats(use: int, cap: int, regions: seq<RegionStat>)

  /** The card of one key: the player and slot sums of its servers
      (`regions[v]`, or `[]` when the key has no entry). */
  function Card(regions: map<string, seq<ServerState>>, key: string): RegionStat {
    var b := if key in regions then regions[key] else [];
    RegionStat(key, Total(b, PlayerCount), Total(b, Slots))
  }

  /** The card of each key, `keys.map(...)`, in key order. */
  function RegionCards(regions: map<string, seq<ServerState>>, keys: seq<string>): (cards: seq<RegionStat>)
    ensures |cards| == |keys|
    ensures forall i :: 0 <= i < |keys| ==> cards[i] == Card(regions, keys[i])
  {
    if keys == [] then [] else [Card(regions, keys[0])] + RegionCards(regions, keys[1..])
  }

  /** The sum of the cards' player counts. */
  function CardUse(cards: seq<RegionStat>): int {
    if cards == [] then 0 else cards[0].pSum + CardUse(cards[1..])
  }

  /** The sum of the cards' slot counts. */
  function CardMax(cards: seq<RegionStat>): int {
    if cards == [] then 0 else cards[0].pMax + CardMax(cards[1..])
  }

  lemma {:induction false} CardsAreRegionTotals(servers: seq<ServerState>, regions: map<string, seq<ServerState>>, keys: seq<string>)
    requires forall r :: r in regions ==> regions[r] == Bucket(servers, r)
    requires forall r :: r in keys ==> r in regions
    ensures CardUse(RegionCards(regions, keys)) == RegionTotal(servers, keys, PlayerCount)
    ensures CardMax(RegionCards(regions, keys)) == RegionTotal(servers, keys, Slots)
  {
    if keys != [] {
      CardsAreRegionTotals(servers, regions, keys[1..]);
      assert RegionCards(regions, keys)[1..] == RegionCards(regions, keys[1..]);
    }
  }

  /** The regions the cards are for. */
  function CardRegions(cards: seq<RegionStat>): set<string> {
    set c | c in cards :: c.region
  }

  /** `ServerStats`: the global use and capacity, and one card per region
      in strictly ascending order, whose player counts add up to the
      global use. */
  method ServerStats(servers: seq<ServerState>) returns (st: Stats)
    ensures st.cap == DefaultSlots * |servers|
    ensures st.use == Usage(servers)
    ensures CardRegions(st.regions) == Regions(servers)
    ensures forall i :: 0 < i < |st.regions| ==>
              LexLe(st.regions[i - 1].region, st.regions[i].region) &&
              st.regions[i - 1].region != st.regions[i].region
    ensures forall i :: 0 <= i < |st.regions| ==>
              st.regions[i].pSum == Usage(Bucket(servers, st.regions[i].region)) &&
              st.regions[i].pMax == Total(Bucket(servers, st.regions[i].region), Slots)
    ensures CardUse(st.regions) == st.use
    ensures CardMax(st.regions) == Total(servers, Slots)
  {
    var regions, keys := GroupByRegion(servers);
    var sorted := SortKeys(keys);
    SameElements(keys, sorted);
    var cards := RegionCards(regions, sorted);
    CardsFollowKeys(servers, regions, sorted, cards);
    CardsAreRegionTotals(servers, regions, sorted);
    RegionTotalConserved(servers, sorted, PlayerCount);
    RegionTotalConserved(servers, sorted, Slots);
    st := Stats(Usage(servers), Capacity(servers), cards);
  }

  /** The cards of sorted, distinct keys that name exactly the regions of
      the list are sorted, distinct, cover the regions and hold their
      buckets' figures. */
  lemma CardsFollowKeys(servers: seq<ServerState>, regions: map<string, seq<ServerState>>,
                        sorted: seq<string>, cards: seq<RegionStat>)
    requires regions.Keys == Regions(servers)
    requires forall r :: r in regions ==> regions[r] == Bucket(servers, r)
    requires Sorted(sorted) && NoDuplicates(sorted)
    requires forall r :: r in sorted <==> r in regions
    requires cards == RegionCards(regions, sorted)
    ensures CardRegions(cards) == Regions(servers)
    ensures forall i :: 0 < i < |cards| ==>
              LexLe(cards[i - 1].region, cards[i].region) && cards[i - 1].region != cards[i].region
    ensures forall i :: 0 <= i < |cards| ==>
              cards[i].pSum == Usage(Bucket(servers, cards[i].region)) &&
              cards[i].pMax == Total(Bucket(servers, cards[i].region), Slots)
  {
    CardsCoverRegions(servers, regions, sorted, cards);
    forall i | 0 < i < |cards|
      ensures LexLe(cards[i - 1].region, cards[i].region) && cards[i - 1].region != cards[i].region
    {
      assert cards[i - 1] == Card(regions, sorted[i - 1]);
      assert cards[i] == Card(regions, sorted[i]);
    }
    forall i | 0 <= i < |cards|
      ensures cards[i].pSum == Usage(Bucket(servers, cards[i].region))
      ensures cards[i].pMax == Total(Bucket(servers, cards[i].region), Slots)
    {
      assert cards[i] == Card(regions, sorted[i]);
      assert sorted[i] in regions;
    }
  }

  lemma CardsCoverRegions(servers: seq<ServerState>, regions: map<string, seq<ServerState>>,
                          sorted: seq<string>, cards: seq<RegionStat>)
    requires regions.Keys == Regions(servers)
    requires forall r :: r in sorted <==> r in regions
    requires |cards| == |sorted|
    requires forall i :: 0 <= i < |sorted| ==> cards[i].region == sorted[i]
    ensures CardRegions(cards) == Regions(servers)
  {
    forall r | r in Regions(servers) ensures r in CardRegions(cards) {
      var i :| 0 <= i < |sorted| && sorted[i] == r;
      assert cards[i] in cards;
    }
    forall c | c in cards ensures c.region in Regions(servers) {
      var i :| 0 <= i < |cards| && cards[i] == c;
      assert sorted[i] in regions;
    }
  }

  /** Sequences with the same multiset have the same members. */
  lemma SameElements(a: seq<string>, b: seq<string>)
    requires multiset(a) == multiset(b)
    ensures forall x :: x in a <==> x in b
  {
    forall x ensures x in a <==> x in b {
      assert x in a <==> x in multiset(a);
      assert x in b <==> x in multiset(b);
    }
  }

  /** The global capacity counts 24 slots per server while a region card
      counts each server's own `max_players`: with one 32-slot server the
      card shows 32 where the global figure is 24. */
  lemma RegionSlotsDifferFromCapacity()
    ensures var s := [ServerState("eu", None, Some(32))];
            Total(s, Slots) == 32 && Capacity(s) == 24
  {
    var s := [ServerState("eu", None, Some(32))];
    assert s[..0] == [];
  }

  /** Where every server has the default slot count, the region cards'
      slots add up to the global capacity. */
  lemma {:induction false} DefaultSlotsMatchCapacity(servers: seq<ServerState>)
    requires forall i :: 0 <= i < |servers| ==> Slots(servers[i]) == DefaultSlots
    ensures Total(servers, Slots) == Capacity(servers)
    decreases |servers|
  {
    if servers != [] {
      var p := servers[..|servers| - 1];
      forall i | 0 <= i < |p| ensures Slots(p[i]) == DefaultSlots {
        assert p[i] == servers[i];
      }
      DefaultSlotsMatchCapacity(p);
    }
  }

  // ---------------------------------------------------------------------
  // Polling

  /** Seconds between the end of one poll and the next. */
  const PollInterval := 5

  /** The server list page: its server list and the poll timer. */
  class ServersPage {
    var servers: seq<ServerState>
    /** When the timer next fires, in seconds. */
    var expiry: int
    /** Polls that have settled, and how often the timer was re-armed. */
    var cycles: nat
    var restarts: nat
    /** Messages shown with `alert`. */
    var alerts: seq<string>

    /** Every settled poll re-armed the timer exactly once. */
    predicate Valid()
      reads this
    {
      restarts == cycles
    }

    /** Mounting: no servers yet, and a timer that fires at once. */
    constructor (now: int)
      ensures Valid()
      ensures servers == [] && expiry == now && cycles == 0 && alerts == []
    {
      servers, expiry, cycles, restarts, alerts := [], now, 0, 0, [];
    }

    /** `onExpire` once the server list request has settled at time `now`:
        a response (or `[]` for a null one) replaces the list, a failure is
        alerted, and either way the timer is re-armed for 5 seconds later. */
    method OnExpire(outcome: Fetch<Option<seq<ServerState>>>, now: int)
      requires Valid()
      modifies this
      ensures Valid()
      ensures cycles == old(cycles) + 1 && restarts == old(restarts) + 1
      ensures expiry == now + PollInterval
      ensures outcome.Resolved? ==> servers == outcome.value.GetOr([]) && alerts == old(alerts)
      ensures outcome.Rejected? ==>
                servers == old(servers) && alerts == old(alerts) + ["Failed to load server: " + outcome.reason]
    {
      match outcome {
        case Resolved(resp) =>
          servers := resp.GetOr([]);
        case Rejected(e) =>
          alerts := alerts + ["Failed to load server: " + e];
      }
      cycles := cycles + 1;
      Restart(now + PollInterval);
    }

    /** `restart(nextExpiry())`. */
    method Restart(at: int)
      modifies this`expiry, this`restarts
      ensures expiry == at && restarts == old(restarts) + 1
    {
      expiry := at;
      restarts := restarts + 1;
    }
  }
}
