/** The player profile page (frontend/src/page/Profile.tsx): fetching the
    profile, when the content shows, and the Steam status chips. */
module Profiles {
  import opened Common
  import opened Bans

  /** The fields of a player summary that the page decides on. */
  datatype PlayerSummary = PlayerSummary(
    steam_id: SteamId, personaname: string, realname: string,
    vac_bans: int, game_bans: int, economy_ban: string, community_banned: bool)

  /** A profile: the player and, when the API sends them, their friends. */
  datatype PlayerProfile = PlayerProfile(player: PlayerSummary, friends: Option<seq<Person>>)

  // ---------------------------------------------------------------------
  // What the page shows

  datatype ChipColour = ChipError | ChipSuccess

  /** A status chip: its label and colour. */
  datatype Chip = Chip(name: string, colour: ChipColour)

  /** A chip is red when its ban predicate holds and green otherwise. */
  function ChipFor(name: string, banned: bool): (c: Chip)
    ensures c.name == name
    ensures c.colour == ChipError <==> banned
    ensures c.colour == ChipSuccess <==> !banned
  {
    Chip(name, if banned then ChipError else ChipSuccess)
  }

  /** The four chips of the Steam Community Status panel, in order. */
  function StatusChips(p: PlayerSummary): (chips: seq<Chip>)
    ensures |chips| == 4
    ensures chips[0].name == "VAC" && (chips[0].colour == ChipError <==> p.vac_bans > 0)
    ensures chips[1].name == "Game Ban" && (chips[1].colour == ChipError <==> p.game_bans > 0)
    ensures chips[2].name == "Economy Ban" && (chips[2].colour == ChipError <==> p.economy_ban != "none")
    ensures chips[3].name == "Community Ban" && (chips[3].colour == ChipError <==> p.community_banned)
  {
    [ChipFor("VAC", p.vac_bans > 0),
     ChipFor("Game Ban", p.game_bans > 0),
     ChipFor("Economy Ban", p.economy_ban != "none"),
     ChipFor("Community Ban", p.community_banned)]
  }

  /** A clean record (no VAC or game bans, economy `none`, not community
      banned) shows four green chips, and any ban turns one red. */
  lemma CleanRecordAllGreen(p: PlayerSummary)
    ensures (forall i :: 0 <= i < 4 ==> StatusChips(p)[i].colour == ChipSuccess) <==>
            p.vac_bans <= 0 && p.game_bans <= 0 && p.economy_ban == "none" && !p.community_banned
  {
    var c := StatusChips(p);
    if forall i :: 0 <= i < 4 ==> c[i].colour == ChipSuccess {
      assert c[0].colour == ChipSuccess && c[1].colour == ChipSuccess;
      assert c[2].colour == ChipSuccess && c[3].colour == ChipSuccess;
    }
  }

  /** The main content shows once loading is over and a profile with a
      positive Steam id is present. */
  predicate ShowsContent(loading: bool, profile: Option<PlayerProfile>) {
    !loading && profile.Some? && profile.value.player.steam_id > 0
  }

  /** The blocks the page renders: the spinner, the content, or neither. */
  datatype Block = SpinnerBlock | ContentBlock(chips: seq<Chip>, friends: seq<Person>)

  function Render(loading: bool, profile: Option<PlayerProfile>): (r: seq<Block>)
    ensures |r| <= 1
    ensures r == [SpinnerBlock] <==> loading
    ensures (|r| == 1 && r[0].ContentBlock?) <==> ShowsContent(loading, profile)
    ensures |r| == 1 && r[0].ContentBlock? ==>
              r[0].chips == StatusChips(profile.value.player) &&
              r[0].friends == profile.value.friends.GetOr([])
  {
    if loading then [SpinnerBlock]
    else if profile.Some? && profile.value.player.steam_id > 0 then
      [ContentBlock(StatusChips(profile.value.player), FriendsShown(profile.value))]
    else []
  }

  /** `profile?.friends || []`: the friend list, empty when there is none. */
  function FriendsShown(p: PlayerProfile): (friends: seq<Person>)
    ensures p.friends.None? ==> friends == []
    ensures p.friends.Some? ==> friends == p.friends.value
  {
    p.friends.GetOr([])
  }

  // ---------------------------------------------------------------------
  // Page state

  class ProfileView {
    var profile: Option<PlayerProfile>
    var loading: bool

    constructor ()
      ensures profile.None? && loading
    {
      profile, loading := None, true;
    }

    /** The fetch effect for the `steam_id` route parameter: nothing
        without one (absent or empty); otherwise loading is raised and the
        profile of that id is requested. */
    method StartFetch(steamId: Option<string>) returns (requested: Option<string>)
      modifies this`loading
      ensures steamId.None? || steamId.value == "" ==> requested.None? && loading == old(loading)
      ensures steamId.Some? && steamId.value != "" ==> requested == steamId && loading
    {
      if steamId.None? || steamId.value == "" {
        requested := None;
      } else {
        loading := true;
        requested := steamId;
      }
    }

    /** The profile request settled: only a non-null response replaces the
        profile; whatever the outcome, loading is cleared. */
    method FetchSettled(outcome: Fetch<Option<PlayerProfile>>)
      modifies this
      ensures !loading
      ensures outcome.Resolved? && outcome.value.Some? ==> profile == outcome.value
      ensures outcome.Rejected? || outcome.value.None? ==> profile == old(profile)
    {
      match outcome {
        case Resolved(p) =>
          if p.Some? {
            profile := p;
          }
        case Rejected(_) =>
      }
      loading := false;
    }
  }
}
