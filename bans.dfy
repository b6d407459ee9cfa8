/** The ban records of the web API (frontend/src/api/bans.ts): the reason and
    type code tables, and the flattening of each `{ban, person}` pair of the
    list-bans response into one record. Wire field names are kept. */
module Bans {
  import opened Common

  /** A Steam identifier; the front end compares it with 0. */
  type SteamId = int
  /** A date as the wire carries it, kept opaque. */
  type Timestamp = int

  // ---------------------------------------------------------------------
  // Reason and type tables

  datatype BanReason =
    | Custom | External | Cheating | Racism | Harassment | Exploiting
    | WarningsExceeded | Spam | Language | Profile | ItemDescriptions | BotHost

  /** The numeric value of each reason in the enum. */
  function ReasonCode(r: BanReason): int {
    match r
    case Custom => 1
    case External => 2
    case Cheating => 3
    case Racism => 4
    case Harassment => 5
    case Exploiting => 6
    case WarningsExceeded => 7
    case Spam => 8
    case Language => 9
    case Profile => 10
    case ItemDescriptions => 11
    case BotHost => 12
  }

  /** The reason a number stands for, if any. */
  function ReasonOfCode(code: int): (r: Option<BanReason>)
    ensures r.Some? <==> 1 <= code <= 12
    ensures r.Some? ==> ReasonCode(r.value) == code
  {
    if code == 1 then Some(Custom)
    else if code == 2 then Some(External)
    else if code == 3 then Some(Cheating)
    else if code == 4 then Some(Racism)
    else if code == 5 then Some(Harassment)
    else if code == 6 then Some(Exploiting)
    else if code == 7 then Some(WarningsExceeded)
    else if code == 8 then Some(Spam)
    else if code == 9 then Some(Language)
    else if code == 10 then Some(Profile)
    else if code == 11 then Some(ItemDescriptions)
    else if code == 12 then Some(BotHost)
    else None
  }

  /** Every reason survives the trip to its number and back. */
  lemma ReasonCodeRoundTrip(r: BanReason)
    ensures ReasonOfCode(ReasonCode(r)) == Some(r)
  {
  }

  /** The display label of each reason (`BanReasons`). */
  function ReasonLabel(r: BanReason): string {
    match r
    case Custom => "Custom"
    case External => "3rd party"
    case Cheating => "Cheating"
    case Racism => "Racism"
    case Harassment => "Person Harassment"
    case Exploiting => "Exploiting"
    case WarningsExceeded => "Warnings Exceeding"
    case Spam => "Spam"
    case Language => "Language"
    case Profile => "Profile"
    case ItemDescriptions => "Item Name/Descriptions"
    case BotHost => "Bot Host"
  }

  /** No two reasons share a label, so a label identifies its reason. */
  lemma ReasonLabelsDistinct(a: BanReason, b: BanReason)
    ensures ReasonLabel(a) == ReasonLabel(b) ==> a == b
  {
  }

  /** The reasons offered for selection (`banReasonsList`), in their order. */
  const BanReasonsList: seq<BanReason> :=
    [Cheating, Racism, Harassment, Exploiting, WarningsExceeded, Spam,
     Language, Profile, ItemDescriptions, External, Custom]

  /** The selection offers eleven distinct reasons: every reason but BotHost. */
  lemma BanReasonsListContents()
    ensures |BanReasonsList| == 11
    ensures NoDuplicates(BanReasonsList)
    ensures forall r: BanReason :: r in BanReasonsList <==> r != BotHost
  {
  }

  datatype BanType = Unknown | OK | NoComm | Banned

  /** The numeric value of each ban type in the enum. */
  function BanTypeCode(t: BanType): int {
    match t
    case Unknown => -1
    case OK => 0
    case NoComm => 1
    case Banned => 2
  }

  /** The ban type a number stands for, if any. */
  function BanTypeOfCode(code: int): (t: Option<BanType>)
    ensures t.Some? <==> -1 <= code <= 2
    ensures t.Some? ==> BanTypeCode(t.value) == code
  {
    if code == -1 then Some(Unknown)
    else if code == 0 then Some(OK)
    else if code == 1 then Some(NoComm)
    else if code == 2 then Some(Banned)
    else None
  }

  lemma BanTypeCodeRoundTrip(t: BanType)
    ensures BanTypeOfCode(BanTypeCode(t)) == Some(t)
  {
  }

  // ---------------------------------------------------------------------
  // Records

  /** A ban as the API sends it. `ban_type` and `reason` are the raw numbers
      of the wire, which need not be valid codes. */
  datatype Ban = Ban(
    ban_id: int, net_id: int, steam_id: SteamId, cidr: string,
    author_id: SteamId, ban_type: int, reason: int, reason_text: string,
    unban_reason_text: string, note: string, source: int, deleted: bool,
    report_id: int, valid_until: Timestamp, created_on: Timestamp,
    updated_on: Timestamp)

  /** The fields of a player that the flattening reads. */
  datatype Person = Person(
    steam_id: SteamId, steamid: SteamId, communityvisibilitystate: int,
    profilestate: int, personaname: string, profileurl: string,
    avatar: string, avatarmedium: string, avatarfull: string,
    personastate: int, realname: string, timecreated: int,
    personastateflags: int, loccountrycode: string, ip_addr: string)

  /** One element of the list-bans response. */
  datatype BannedPerson = BannedPerson(ban: Ban, person: Person)

  /** `IAPIBanRecord`: a ban with the player's fields alongside. */
  datatype BanRecord = BanRecord(
    ban_id: int, net_id: int, steam_id: SteamId, cidr: string,
    author_id: SteamId, ban_type: int, reason: int, reason_text: string,
    unban_reason_text: string, note: string, source: int, deleted: bool,
    report_id: int, valid_until: Timestamp, created_on: Timestamp,
    updated_on: Timestamp,
    steamid: SteamId, communityvisibilitystate: int, profilestate: int,
    personaname: string, profileurl: string, avatar: string,
    avatarmedium: string, avatarfull: string, personastate: int,
    realname: string, timecreated: int, personastateflags: int,
    loccountrycode: string, ip_addr: string)

  /** The object literal built for one response element: `steam_id` and the
      player fields from `person`, every other ban field from `ban`. */
  function Flatten(b: BannedPerson): BanRecord {
    BanRecord(
      ban_id := b.ban.ban_id, net_id := b.ban.net_id,
      steam_id := b.person.steam_id, cidr := b.ban.cidr,
      author_id := b.ban.author_id, ban_type := b.ban.ban_type,
      reason := b.ban.reason, reason_text := b.ban.reason_text,
      unban_reason_text := b.ban.unban_reason_text, note := b.ban.note,
      source := b.ban.source, deleted := b.ban.deleted,
      report_id := b.ban.report_id, valid_until := b.ban.valid_until,
      created_on := b.ban.created_on, updated_on := b.ban.updated_on,
      steamid := b.person.steamid,
      communityvisibilitystate := b.person.communityvisibilitystate,
      profilestate := b.person.profilestate,
      personaname := b.person.personaname, profileurl := b.person.profileurl,
      avatar := b.person.avatar, avatarmedium := b.person.avatarmedium,
      avatarfull := b.person.avatarfull, personastate := b.person.personastate,
      realname := b.person.realname, timecreated := b.person.timecreated,
      personastateflags := b.person.personastateflags,
      loccountrycode := b.person.loccountrycode, ip_addr := b.person.ip_addr)
  }

  /** Splits a record back into a ban and a player. The ban's own
      `steam_id` is not in the record, so the player's is used for it. */
  function Unflatten(r: BanRecord): BannedPerson {
    BannedPerson(
      Ban(r.ban_id, r.net_id, r.steam_id, r.cidr, r.author_id, r.ban_type,
          r.reason, r.reason_text, r.unban_reason_text, r.note, r.source,
          r.deleted, r.report_id, r.valid_until, r.created_on, r.updated_on),
      Person(r.steam_id, r.steamid, r.communityvisibilitystate, r.profilestate,
             r.personaname, r.profileurl, r.avatar, r.avatarmedium,
             r.avatarfull, r.personastate, r.realname, r.timecreated,
             r.personastateflags, r.loccountrycode, r.ip_addr))
  }

  /** A response element with the ban's `steam_id` replaced by the player's. */
  function PersonSteamId(b: BannedPerson): BannedPerson {
    b.(ban := b.ban.(steam_id := b.person.steam_id))
  }

  /** Flattening forgets exactly one thing, the ban's own `steam_id`: it
      is undone by Unflatten up to that field, and every record is the
      flattening of its own split. */
  lemma FlattenRoundTrip(b: BannedPerson, r: BanRecord)
    ensures Unflatten(Flatten(b)) == PersonSteamId(b)
    ensures Flatten(Unflatten(r)) == r
  {
  }

  /** Two response elements flatten alike iff they agree on everything but
      the ban's `steam_id`. */
  lemma FlattenIdentifies(a: BannedPerson, b: BannedPerson)
    ensures Flatten(a) == Flatten(b) <==>
            a.person == b.person && a.ban.(steam_id := 0) == b.ban.(steam_id := 0)
  {
    if Flatten(a) == Flatten(b) {
      FlattenRoundTrip(a, Flatten(a));
      FlattenRoundTrip(b, Flatten(b));
    }
  }

  /** The `.map` over the response: one record per element, in order. */
  function FlattenAll(resp: seq<BannedPerson>): (r: seq<BanRecord>)
    ensures |r| == |resp|
    ensures forall i :: 0 <= i < |resp| ==> r[i] == Flatten(resp[i])
  {
    if resp == [] then [] else [Flatten(resp[0])] + FlattenAll(resp[1..])
  }

  // ---------------------------------------------------------------------
  // apiGetBans

  /** The filter fields of a list-bans request that appear in the pages. */
  datatype BansQueryFilter = BansQueryFilter(
    limit: Option<int>, deleted: Option<bool>, steam_id: Option<SteamId>)

  /** `{}`: a filter with no field set. */
  const EmptyFilter := BansQueryFilter(None, None, None)

  /** The body `apiGetBans` posts: the given filter, `{}` when there is none. */
  function BansRequestBody(opts: Option<BansQueryFilter>): (body: BansQueryFilter)
    ensures opts.Some? ==> body == opts.value
    ensures opts.None? ==> body.limit.None? && body.deleted.None? && body.steam_id.None?
  {
    opts.GetOr(EmptyFilter)
  }

  /** What `apiGetBans` resolves to for the decoded response body: a null
      or undefined body gives no records, otherwise one record per element
      in the response's order. */
  function ApiGetBansResult(resp: Option<seq<BannedPerson>>): (r: seq<BanRecord>)
    ensures resp.None? ==> r == []
    ensures resp.Some? ==> |r| == |resp.value|
    ensures resp.Some? ==> forall i :: 0 <= i < |r| ==>
              r[i].steam_id == resp.value[i].person.steam_id &&
              Unflatten(r[i]) == PersonSteamId(resp.value[i])
  {
    FlattenAll(resp.GetOr([]))
  }
}
