/** The booking site's list logic: the venues listing grouped by city and
    state, the split of a venue's or an artist's shows into upcoming and past,
    the search summaries, and the 'Yes'/'No' form answer for the seeking
    flags.

    Tables are inputs (`seq` of rows, in the order the query returned them);
    `datetime.today()` is the parameter `today`, and times are ordered
    timestamps. */
module Fyyur {
  import opened Responses
  import opened Seqs

  datatype Venue = Venue(id: int, name: string, city: string, state: string, imageLink: Option<string>, seekingTalent: bool)

  datatype Artist = Artist(id: int, name: string, city: string, state: string, imageLink: Option<string>, seekingVenue: bool)

  datatype Show = Show(id: int, startTime: int, venueId: int, artistId: int)

  // ---------------------------------------------------------------------
  // Upcoming and past shows
  // ---------------------------------------------------------------------

  /** Whose shows a page lists: a venue's (by `venue_id`) or an artist's (by
      `artist_id`). */
  datatype Owner = VenueOwner(venueId: int) | ArtistOwner(artistId: int)

  predicate BelongsTo(s: Show, o: Owner) {
    match o
    case VenueOwner(id) => s.venueId == id
    case ArtistOwner(id) => s.artistId == id
  }

  function OwnedShows(shows: seq<Show>, o: Owner): seq<Show> {
    Filter(shows, (s: Show) => BelongsTo(s, o))
  }

  /** `Show.query.filter(Show.start_time >= today, <owner>)`. */
  function UpcomingShows(shows: seq<Show>, o: Owner, today: int): (r: seq<Show>)
    ensures forall s :: s in r <==> s in shows && s.startTime >= today && BelongsTo(s, o)
    ensures forall s :: multiset(r)[s] == if s.startTime >= today && BelongsTo(s, o) then multiset(shows)[s] else 0
  {
    var upcoming := (s: Show) => s.startTime >= today && BelongsTo(s, o);
    FilterCounts(shows, upcoming);
    Filter(shows, upcoming)
  }

  /** `Show.query.filter(Show.start_time < today, <owner>)`. */
  function PastShows(shows: seq<Show>, o: Owner, today: int): (r: seq<Show>)
    ensures forall s :: s in r <==> s in shows && s.startTime < today && BelongsTo(s, o)
    ensures forall s :: multiset(r)[s] == if s.startTime < today && BelongsTo(s, o) then multiset(shows)[s] else 0
  {
    var past := (s: Show) => s.startTime < today && BelongsTo(s, o);
    FilterCounts(shows, past);
    Filter(shows, past)
  }

  /** The upcoming and the past shows of an owner split its shows: every show
      is in exactly one of the two lists, once for each time it occurs. */
  lemma ShowsPartition(shows: seq<Show>, o: Owner, today: int)
    ensures multiset(UpcomingShows(shows, o, today)) + multiset(PastShows(shows, o, today))
         == multiset(OwnedShows(shows, o))
    ensures forall s :: s in UpcomingShows(shows, o, today) ==> s.startTime >= today
    ensures forall s :: s in PastShows(shows, o, today) ==> s.startTime < today
  {
    var upcoming, past := multiset(UpcomingShows(shows, o, today)), multiset(PastShows(shows, o, today));
    var owned := multiset(OwnedShows(shows, o));
    FilterCounts(shows, (s: Show) => BelongsTo(s, o));
    forall s ensures (upcoming + past)[s] == owned[s] {
    }
    assert upcoming + past == owned;
  }

  /** `Artist.query.filter(Artist.id == id).first()`. */
  function ArtistWithId(artists: seq<Artist>, id: int): Option<Artist> {
    FindFirst(artists, (a: Artist) => a.id == id)
  }

  /** `Venue.query.get(id)`, and the `show.venue` relationship. */
  function VenueWithId(venues: seq<Venue>, id: int): Option<Venue> {
    FindFirst(venues, (v: Venue) => v.id == id)
  }

  /** A show as a venue page or an artist page lists it, with the name and
      image of the other party (the artist on a venue page, the venue on an
      artist page). */
  datatype ShowEntry = ShowEntry(show: Show, partnerName: string, partnerImageLink: Option<string>)

  function ShowsOf(entries: seq<ShowEntry>): seq<Show> {
    seq(|entries|, k requires 0 <= k < |entries| => entries[k].show)
  }

  /** Each entry carries the name and image of its show's artist. */
  predicate ArtistsAttached(entries: seq<ShowEntry>, artists: seq<Artist>) {
    forall k :: 0 <= k < |entries| ==>
      var a := ArtistWithId(artists, entries[k].show.artistId);
      a.Some? && entries[k].partnerName == a.value.name && entries[k].partnerImageLink == a.value.imageLink
  }

  /** Each entry carries the name and image of its show's venue. */
  predicate VenuesAttached(entries: seq<ShowEntry>, venues: seq<Venue>) {
    forall k :: 0 <= k < |entries| ==>
      var v := VenueWithId(venues, entries[k].show.venueId);
      v.Some? && entries[k].partnerName == v.value.name && entries[k].partnerImageLink == v.value.imageLink
  }

  /** `venue_show_list_to_dict`: each show with its artist, looked up with
      `Artist.query.filter(Artist.id == ...).first()`. A show whose artist is
      missing makes `artist.__dict__` raise. */
  method VenueShowListToDict(showList: seq<Show>, artists: seq<Artist>) returns (r: Result<seq<ShowEntry>>)
    ensures r.Success? <==> forall s :: s in showList ==> ArtistWithId(artists, s.artistId).Some?
    ensures r.Failure? ==> r.error == ServerError
    ensures r.Success? ==> ShowsOf(r.value) == showList
    ensures r.Success? ==> forall k :: 0 <= k < |r.value| ==>
      var a := ArtistWithId(artists, showList[k].artistId).value;
      r.value[k].partnerName == a.name && r.value[k].partnerImageLink == a.imageLink
    ensures r.Success? ==> ArtistsAttached(r.value, artists)
  {
    var entries: seq<ShowEntry> := [];
    var i := 0;
    while i < |showList|
      invariant 0 <= i <= |showList|
      invariant |entries| == i
      invariant forall k :: 0 <= k < i ==> ArtistWithId(artists, showList[k].artistId).Some?
      invariant forall k :: 0 <= k < i ==>
        var a := ArtistWithId(artists, showList[k].artistId).value;
        entries[k] == ShowEntry(showList[k], a.name, a.imageLink)
    {
      var show := showList[i];
      var artist := ArtistWithId(artists, show.artistId);
      if artist.None? {
        return Failure(ServerError);
      }
      entries := entries + [ShowEntry(show, artist.value.name, artist.value.imageLink)];
      i := i + 1;
    }
    assert ShowsOf(entries) == showList;
    return Success(entries);
  }

  /** `artist_show_list_to_dict`: each show with its venue, reached through
      the `show.venue` relationship; a dangling venue id makes `.name` raise. */
  method ArtistShowListToDict(showList: seq<Show>, venues: seq<Venue>) returns (r: Result<seq<ShowEntry>>)
    ensures r.Success? <==> forall s :: s in showList ==> VenueWithId(venues, s.venueId).Some?
    ensures r.Failure? ==> r.error == ServerError
    ensures r.Success? ==> ShowsOf(r.value) == showList
    ensures r.Success? ==> forall k :: 0 <= k < |r.value| ==>
      var v := VenueWithId(venues, showList[k].venueId).value;
      r.value[k].partnerName == v.name && r.value[k].partnerImageLink == v.imageLink
    ensures r.Success? ==> VenuesAttached(r.value, venues)
  {
    var entries: seq<ShowEntry> := [];
    var i := 0;
    while i < |showList|
      invariant 0 <= i <= |showList|
      invariant |entries| == i
      invariant forall k :: 0 <= k < i ==> VenueWithId(venues, showList[k].venueId).Some?
      invariant forall k :: 0 <= k < i ==>
        var v := VenueWithId(venues, showList[k].venueId).value;
        entries[k] == ShowEntry(showList[k], v.name, v.imageLink)
    {
      var show := showList[i];
      var venue := VenueWithId(venues, show.venueId);
      if venue.None? {
        return Failure(ServerError);
      }
      entries := entries + [ShowEntry(show, venue.value.name, venue.value.imageLink)];
      i := i + 1;
    }
    assert ShowsOf(entries) == showList;
    return Success(entries);
  }

  datatype ShowsPage = ShowsPage(upcoming: seq<ShowEntry>, upcomingCount: nat, past: seq<ShowEntry>, pastCount: nat)

  datatype VenuePage = VenuePage(venue: Venue, shows: ShowsPage)

  datatype ArtistPage = ArtistPage(artist: Artist, shows: ShowsPage)

  /** GET /venues/<id>. `Venue.query.get` gives None for an unknown id, and
      `venue.__dict__` then raises. */
  method ShowVenue(venues: seq<Venue>, artists: seq<Artist>, shows: seq<Show>, venueId: int, today: int)
    returns (r: Result<VenuePage>)
    ensures r.Success? <==>
      && VenueWithId(venues, venueId).Some?
      && forall s :: s in OwnedShows(shows, VenueOwner(venueId)) ==> ArtistWithId(artists, s.artistId).Some?
    ensures r.Failure? ==> r.error == ServerError
    ensures r.Success? ==>
      && r.value.venue == VenueWithId(venues, venueId).value
      && r.value.venue.id == venueId
      && ArtistsAttached(r.value.shows.upcoming, artists)
      && ArtistsAttached(r.value.shows.past, artists)
      && ShowsOf(r.value.shows.upcoming) == UpcomingShows(shows, VenueOwner(venueId), today)
      && ShowsOf(r.value.shows.past) == PastShows(shows, VenueOwner(venueId), today)
      && r.value.shows.upcomingCount == |r.value.shows.upcoming|
      && r.value.shows.pastCount == |r.value.shows.past|
  {
    var venue := VenueWithId(venues, venueId);
    if venue.None? {
      return Failure(ServerError);
    }
    var upcoming := VenueShowListToDict(UpcomingShows(shows, VenueOwner(venueId), today), artists);
    if upcoming.Failure? {
      return Failure(ServerError);
    }
    var past := VenueShowListToDict(PastShows(shows, VenueOwner(venueId), today), artists);
    if past.Failure? {
      return Failure(ServerError);
    }
    return Success(VenuePage(venue.value, ShowsPage(upcoming.value, |upcoming.value|, past.value, |past.value|)));
  }

  /** GET /artists/<id>, the same as a venue page with the roles swapped. */
  method ShowArtist(venues: seq<Venue>, artists: seq<Artist>, shows: seq<Show>, artistId: int, today: int)
    returns (r: Result<ArtistPage>)
    ensures r.Success? <==>
      && ArtistWithId(artists, artistId).Some?
      && forall s :: s in OwnedShows(shows, ArtistOwner(artistId)) ==> VenueWithId(venues, s.venueId).Some?
    ensures r.Failure? ==> r.error == ServerError
    ensures r.Success? ==>
      && r.value.artist == ArtistWithId(artists, artistId).value
      && r.value.artist.id == artistId
      && VenuesAttached(r.value.shows.upcoming, venues)
      && VenuesAttached(r.value.shows.past, venues)
      && ShowsOf(r.value.shows.upcoming) == UpcomingShows(shows, ArtistOwner(artistId), today)
      && ShowsOf(r.value.shows.past) == PastShows(shows, ArtistOwner(artistId), today)
      && r.value.shows.upcomingCount == |r.value.shows.upcoming|
      && r.value.shows.pastCount == |r.value.shows.past|
  {
    var artist := ArtistWithId(artists, artistId);
    if artist.None? {
      return Failure(ServerError);
    }
    var upcoming := ArtistShowListToDict(UpcomingShows(shows, ArtistOwner(artistId), today), venues);
    if upcoming.Failure? {
      return Failure(ServerError);
    }
    var past := ArtistShowListToDict(PastShows(shows, ArtistOwner(artistId), today), venues);
    if past.Failure? {
      return Failure(ServerError);
    }
    return Success(ArtistPage(artist.value, ShowsPage(upcoming.value, |upcoming.value|, past.value, |past.value|)));
  }

  // ---------------------------------------------------------------------
  // The venues listing, grouped by location
  // ---------------------------------------------------------------------

  datatype Location = Location(city: string, state: string)

  function LocationOf(v: Venue): Location {
    Location(v.city, v.state)
  }

  /** A run of venues that share a location. */
  datatype VenueGroup = VenueGroup(location: Location, members: seq<Venue>)

  /** The venues of the groups, group after group. */
  function Flatten(groups: seq<VenueGroup>): seq<Venue> {
    if |groups| == 0 then [] else Flatten(groups[..|groups| - 1]) + groups[|groups| - 1].members
  }

  /** A group is a non-empty run of venues of the group's location. */
  ghost predicate IsRun(g: VenueGroup) {
    |g.members| > 0 && forall v :: v in g.members ==> LocationOf(v) == g.location
  }

  /** Every group is a run, and neighbouring groups have different
      locations. */
  ghost predicate WellGrouped(groups: seq<VenueGroup>) {
    && (forall i :: 0 <= i < |groups| ==> IsRun(groups[i]))
    && (forall i :: 0 < i < |groups| ==> groups[i - 1].location != groups[i].location)
  }

  /** The reference grouping: maximal runs of adjacent venues with the same
      location, built venue by venue. */
  function GroupAdjacent(venues: seq<Venue>): seq<VenueGroup> {
    if |venues| == 0 then []
    else
      var gs := GroupAdjacent(venues[..|venues| - 1]);
      var v := venues[|venues| - 1];
      if |gs| > 0 && gs[|gs| - 1].location == LocationOf(v) then
        gs[..|gs| - 1] + [VenueGroup(LocationOf(v), gs[|gs| - 1].members + [v])]
      else
        gs + [VenueGroup(LocationOf(v), [v])]
  }

  lemma FlattenSnoc(groups: seq<VenueGroup>, g: VenueGroup)
    ensures Flatten(groups + [g]) == Flatten(groups) + g.members
  {
    assert (groups + [g])[..|groups|] == groups;
  }

  /** The grouping loses, repeats and reorders nothing. */
  lemma {:induction false} GroupAdjacentFlattens(venues: seq<Venue>)
    ensures Flatten(GroupAdjacent(venues)) == venues
  {
    if |venues| > 0 {
      var prefix, v := venues[..|venues| - 1], venues[|venues| - 1];
      GroupAdjacentFlattens(prefix);
      var gs := GroupAdjacent(prefix);
      var groups := GroupAdjacent(venues);
      assert venues == prefix + [v];
      if |gs| > 0 && gs[|gs| - 1].location == LocationOf(v) {
        var m := |gs|;
        var last := VenueGroup(LocationOf(v), gs[m - 1].members + [v]);
        assert groups == gs[..m - 1] + [last];
        FlattenSnoc(gs[..m - 1], last);
        assert gs == gs[..m - 1] + [gs[m - 1]];
        FlattenSnoc(gs[..m - 1], gs[m - 1]);
        assert Flatten(gs[..m - 1]) + (gs[m - 1].members + [v]) == (Flatten(gs[..m - 1]) + gs[m - 1].members) + [v];
      } else {
        FlattenSnoc(gs, VenueGroup(LocationOf(v), [v]));
      }
    }
  }

  /** The groups are runs of one location that differ from their
      neighbours. */
  lemma {:induction false} GroupAdjacentWellGrouped(venues: seq<Venue>)
    ensures WellGrouped(GroupAdjacent(venues))
  {
    if |venues| > 0 {
      var prefix, v := venues[..|venues| - 1], venues[|venues| - 1];
      GroupAdjacentWellGrouped(prefix);
      var gs := GroupAdjacent(prefix);
      var groups := GroupAdjacent(venues);
      var m := |gs|;
      if m > 0 && gs[m - 1].location == LocationOf(v) {
        assert IsRun(gs[m - 1]);
        assert forall i :: 0 <= i < m - 1 ==> groups[i] == gs[i];
        assert groups[m - 1].location == gs[m - 1].location;
        assert IsRun(groups[m - 1]);
      } else {
        assert forall i :: 0 <= i < m ==> groups[i] == gs[i];
        assert IsRun(groups[m]);
      }
    }
  }

  /** The query orders venues by city and state, so venues with the same
      location are adjacent. */
  ghost predicate Clustered(venues: seq<Venue>) {
    forall i, j, k :: 0 <= i < j < k < |venues| && LocationOf(venues[i]) == LocationOf(venues[k]) ==>
      LocationOf(venues[j]) == LocationOf(venues[i])
  }

  /** No two groups share a location. */
  ghost predicate DistinctLocations(groups: seq<VenueGroup>) {
    forall i, j :: 0 <= i < j < |groups| ==> groups[i].location != groups[j].location
  }

  /** A member of any group is a venue of the flattened groups. */
  lemma {:induction false} MemberInFlatten(groups: seq<VenueGroup>, i: int, v: Venue)
    requires 0 <= i < |groups| && v in groups[i].members
    ensures v in Flatten(groups)
  {
    if i < |groups| - 1 {
      assert groups[..|groups| - 1][i] == groups[i];
      MemberInFlatten(groups[..|groups| - 1], i, v);
    }
  }

  /** A member of a group other than the last one comes before the last
      venue. */
  lemma EarlierGroupPrecedesLast(venues: seq<Venue>, i: int, w: Venue)
    requires var gs := GroupAdjacent(venues); 0 <= i < |gs| - 1 && w in gs[i].members
    ensures exists p :: 0 <= p < |venues| - 1 && venues[p] == w
  {
    var gs := GroupAdjacent(venues);
    var m := |gs|;
    GroupAdjacentFlattens(venues);
    GroupAdjacentWellGrouped(venues);
    assert gs[..m - 1][i] == gs[i];
    MemberInFlatten(gs[..m - 1], i, w);
    var front := Flatten(gs[..m - 1]);
    assert venues == front + gs[m - 1].members;
    assert IsRun(gs[m - 1]);
    var p :| 0 <= p < |front| && front[p] == w;
    assert venues[p] == w;
  }

  lemma ClusteredPrefix(venues: seq<Venue>)
    requires Clustered(venues) && |venues| > 0
    ensures Clustered(venues[..|venues| - 1])
  {
    var prefix := venues[..|venues| - 1];
    forall i, j, k | 0 <= i < j < k < |prefix| && LocationOf(prefix[i]) == LocationOf(prefix[k])
      ensures LocationOf(prefix[j]) == LocationOf(prefix[i])
    {
      assert prefix[i] == venues[i] && prefix[j] == venues[j] && prefix[k] == venues[k];
    }
  }

  /** On venues ordered by location, a venue whose location differs from the
      one before it has a location no earlier group has. */
  lemma NewLocationIsFresh(venues: seq<Venue>, i: int)
    requires Clustered(venues) && |venues| >= 2
    requires LocationOf(venues[|venues| - 2]) != LocationOf(venues[|venues| - 1])
    requires 0 <= i < |GroupAdjacent(venues[..|venues| - 1])|
    ensures GroupAdjacent(venues[..|venues| - 1])[i].location != LocationOf(venues[|venues| - 1])
  {
    var n := |venues|;
    var prefix, v := venues[..n - 1], venues[n - 1];
    var gs := GroupAdjacent(prefix);
    var m := |gs|;
    GroupAdjacentLast(prefix);
    assert prefix[n - 2] == venues[n - 2];
    if i < m - 1 {
      GroupAdjacentWellGrouped(prefix);
      assert IsRun(gs[i]);
      var w := gs[i].members[0];
      EarlierGroupPrecedesLast(prefix, i, w);
      var p :| 0 <= p < n - 2 && prefix[p] == w;
      assert venues[p] == w;
    }
  }

  /** On venues ordered by location every location has exactly one group. */
  lemma {:induction false} ClusteredGroupsDistinct(venues: seq<Venue>)
    requires Clustered(venues)
    ensures DistinctLocations(GroupAdjacent(venues))
  {
    if |venues| > 0 {
      var n := |venues|;
      var prefix, v := venues[..n - 1], venues[n - 1];
      ClusteredPrefix(venues);
      ClusteredGroupsDistinct(prefix);
      var gs', gs := GroupAdjacent(prefix), GroupAdjacent(venues);
      assert DistinctLocations(gs');
      var m := |gs'|;
      if m > 0 && gs'[m - 1].location == LocationOf(v) {
        assert gs == gs'[..m - 1] + [VenueGroup(LocationOf(v), gs'[m - 1].members + [v])];
        forall i, j | 0 <= i < j < |gs| ensures gs[i].location != gs[j].location {
          assert gs[i].location == gs'[i].location && gs[j].location == gs'[j].location;
        }
      } else {
        assert gs == gs' + [VenueGroup(LocationOf(v), [v])];
        if n > 1 {
          GroupAdjacentLast(prefix);
          assert prefix[n - 2] == venues[n - 2];
        }
        forall i, j | 0 <= i < j < |gs| ensures gs[i].location != gs[j].location {
          assert gs[i] == gs'[i];
          if j < m {
            assert gs[j] == gs'[j];
          } else {
            NewLocationIsFresh(venues, i);
          }
        }
      }
    }
  }

  datatype VenueSummary = VenueSummary(id: int, name: string, numUpcomingShows: nat)

  datatype Area = Area(city: string, state: string, venues: seq<VenueSummary>)

  /** The dict built for each venue of the listing. */
  function Summary(v: Venue, shows: seq<Show>, today: int): (r: VenueSummary)
    ensures r.id == v.id && r.name == v.name
    ensures r.numUpcomingShows <= |shows|
    ensures r.numUpcomingShows == 0 <==>
      forall s :: s in shows && BelongsTo(s, VenueOwner(v.id)) ==> s.startTime < today
  {
    VenueSummary(v.id, v.name, |UpcomingShows(shows, VenueOwner(v.id), today)|)
  }

  function Summaries(venues: seq<Venue>, shows: seq<Show>, today: int): seq<VenueSummary> {
    seq(|venues|, k requires 0 <= k < |venues| => Summary(venues[k], shows, today))
  }

  function AreaOf(g: VenueGroup, shows: seq<Show>, today: int): Area {
    Area(g.location.city, g.location.state, Summaries(g.members, shows, today))
  }

  function Areas(groups: seq<VenueGroup>, shows: seq<Show>, today: int): seq<Option<Area>> {
    seq(|groups|, k requires 0 <= k < |groups| => Some(AreaOf(groups[k], shows, today)))
  }

  /** A venue in the same city and state as the one before it joins the last
      group, and that group's area gains the venue's summary. */
  lemma GroupJoinStep(venues: seq<Venue>, i: int, groups: seq<VenueGroup>, shows: seq<Show>, today: int)
    requires 0 < i < |venues| && groups == GroupAdjacent(venues[..i])
    requires LocationOf(venues[i]) == LocationOf(venues[i - 1])
    ensures |groups| > 0
    ensures var last := groups[|groups| - 1];
      var g := VenueGroup(LocationOf(venues[i]), last.members + [venues[i]]);
      && GroupAdjacent(venues[..i + 1]) == groups[..|groups| - 1] + [g]
      && AreaOf(g, shows, today) == AreaOf(last, shows, today).(venues := AreaOf(last, shows, today).venues + [Summary(venues[i], shows, today)])
  {
    GroupAdjacentLast(venues[..i]);
    assert venues[..i][i - 1] == venues[i - 1];
    assert venues[..i + 1][..i] == venues[..i];
    var last := groups[|groups| - 1];
    SummariesSnoc(last.members, venues[i], shows, today);
  }

  /** A venue in another city or state than the one before it (or the first
      venue) opens a new group, and the area of the group before is final. */
  lemma GroupOpenStep(venues: seq<Venue>, i: int, groups: seq<VenueGroup>, shows: seq<Show>, today: int)
    requires 0 <= i < |venues| && groups == GroupAdjacent(venues[..i])
    requires i > 0 ==> LocationOf(venues[i]) != LocationOf(venues[i - 1])
    ensures GroupAdjacent(venues[..i + 1]) == groups + [VenueGroup(LocationOf(venues[i]), [venues[i]])]
    ensures AreaOf(VenueGroup(LocationOf(venues[i]), [venues[i]]), shows, today)
      == Area(venues[i].city, venues[i].state, [Summary(venues[i], shows, today)])
    ensures i > 0 ==> |groups| > 0
    ensures i > 0 ==>
      Areas(groups, shows, today) == Areas(groups[..|groups| - 1], shows, today) + [Some(AreaOf(groups[|groups| - 1], shows, today))]
  {
    if i > 0 {
      GroupAdjacentLast(venues[..i]);
      assert venues[..i][i - 1] == venues[i - 1];
      assert groups == groups[..|groups| - 1] + [groups[|groups| - 1]];
      AreasSnoc(groups[..|groups| - 1], groups[|groups| - 1], shows, today);
    }
    assert venues[..i + 1][..i] == venues[..i];
    assert Summaries([venues[i]], shows, today) == [Summary(venues[i], shows, today)];
  }

  /** The last group of a nonempty grouping is at the last venue's location. */
  lemma GroupAdjacentLast(venues: seq<Venue>)
    requires |venues| > 0
    ensures var gs := GroupAdjacent(venues);
      |gs| > 0 && gs[|gs| - 1].location == LocationOf(venues[|venues| - 1])
  {
  }

  lemma SummariesSnoc(venues: seq<Venue>, v: Venue, shows: seq<Show>, today: int)
    ensures Summaries(venues + [v], shows, today) == Summaries(venues, shows, today) + [Summary(v, shows, today)]
  {
    assert forall k :: 0 <= k < |venues| ==> (venues + [v])[k] == venues[k];
  }

  lemma AreasSnoc(groups: seq<VenueGroup>, g: VenueGroup, shows: seq<Show>, today: int)
    ensures Areas(groups + [g], shows, today) == Areas(groups, shows, today) + [Some(AreaOf(g, shows, today))]
  {
    assert forall k :: 0 <= k < |groups| ==> (groups + [g])[k] == groups[k];
  }

  /** The venue summaries of a listing, area after area. */
  function AreaVenues(areas: seq<Option<Area>>): seq<VenueSummary> {
    if |areas| == 0 then []
    else AreaVenues(areas[..|areas| - 1]) + match areas[|areas| - 1] case None => [] case Some(a) => a.venues
  }

  /** The listing's areas hold every venue's summary once, in query order. */
  lemma {:induction false} AreasListEveryVenue(groups: seq<VenueGroup>, shows: seq<Show>, today: int)
    ensures AreaVenues(Areas(groups, shows, today)) == Summaries(Flatten(groups), shows, today)
  {
    if |groups| > 0 {
      var m := |groups|;
      var front, g := groups[..m - 1], groups[m - 1];
      assert groups == front + [g];
      calc {
        AreaVenues(Areas(groups, shows, today));
        { AreasSnoc(front, g, shows, today); }
        AreaVenues(Areas(front, shows, today) + [Some(AreaOf(g, shows, today))]);
        { AreaVenuesSnoc(Areas(front, shows, today), Some(AreaOf(g, shows, today))); }
        AreaVenues(Areas(front, shows, today)) + AreaOf(g, shows, today).venues;
        { AreasListEveryVenue(front, shows, today); }
        Summaries(Flatten(front), shows, today) + Summaries(g.members, shows, today);
        { SummariesAppend(Flatten(front), g.members, shows, today); }
        Summaries(Flatten(front) + g.members, shows, today);
        { FlattenSnoc(front, g); }
        Summaries(Flatten(groups), shows, today);
      }
    }
  }

  lemma AreaVenuesSnoc(areas: seq<Option<Area>>, a: Option<Area>)
    ensures AreaVenues(areas + [a]) == AreaVenues(areas) + match a case None => [] case Some(x) => x.venues
  {
    assert (areas + [a])[..|areas|] == areas;
  }

  lemma SummariesAppend(a: seq<Venue>, b: seq<Venue>, shows: seq<Show>, today: int)
    ensures Summaries(a + b, shows, today) == Summaries(a, shows, today) + Summaries(b, shows, today)
  {
    var whole, parts := Summaries(a + b, shows, today), Summaries(a, shows, today) + Summaries(b, shows, today);
    assert |whole| == |parts|;
    forall k | 0 <= k < |whole| ensures whole[k] == parts[k] {
      if k < |a| {
        assert (a + b)[k] == a[k];
      } else {
        assert (a + b)[k] == b[k - |a|];
      }
    }
  }

  /** The listing built from the grouping: one area per group, every venue's
      summary once and in order, and no two neighbouring areas in the same
      city and state. */
  lemma ListingOfGrouping(venues: seq<Venue>, shows: seq<Show>, today: int)
    ensures var areas := Areas(GroupAdjacent(venues), shows, today);
      && (forall k :: 0 <= k < |areas| ==> areas[k].Some?)
      && AreaVenues(areas) == Summaries(venues, shows, today)
      && (forall k :: 0 < k < |areas| ==>
            (areas[k - 1].value.city, areas[k - 1].value.state) != (areas[k].value.city, areas[k].value.state))
  {
    var groups := GroupAdjacent(venues);
    GroupAdjacentFlattens(venues);
    GroupAdjacentWellGrouped(venues);
    AreasListEveryVenue(groups, shows, today);
  }

  /** GET /venues: walks the venues (ordered by city and state) keeping the
      previous venue's city and state, starts a new area whenever they
      change, and appends the last area unconditionally, so that an empty
      table gives `[None]`. */
  method ListVenues(venues: seq<Venue>, shows: seq<Show>, today: int) returns (areas: seq<Option<Area>>)
    ensures |venues| == 0 ==> areas == [None]
    ensures |venues| > 0 ==> areas == Areas(GroupAdjacent(venues), shows, today)
    ensures |venues| > 0 ==> forall k :: 0 <= k < |areas| ==> areas[k].Some?
    ensures |venues| > 0 ==> AreaVenues(areas) == Summaries(venues, shows, today)
    ensures forall k :: 0 < k < |areas| && areas[k - 1].Some? && areas[k].Some? ==>
      (areas[k - 1].value.city, areas[k - 1].value.state) != (areas[k].value.city, areas[k].value.state)
  {
    var data: seq<Option<Area>> := [];
    var lastCity: Option<string> := None;
    var lastState: Option<string> := None;
    var location: Option<Area> := None;
    ghost var groups: seq<VenueGroup> := [];
    var i := 0;
    while i < |venues|
      invariant 0 <= i <= |venues|
      invariant groups == GroupAdjacent(venues[..i])
      invariant i == 0 ==> data == [] && location.None? && lastCity.None? && lastState.None?
      invariant i > 0 ==> lastCity == Some(venues[i - 1].city) && lastState == Some(venues[i - 1].state)
      invariant i > 0 ==>
        && |groups| > 0
        && data == Areas(groups[..|groups| - 1], shows, today)
        && location == Some(AreaOf(groups[|groups| - 1], shows, today))
    {
      var venue := venues[i];
      var summary := Summary(venue, shows, today);
      if Some(venue.city) == lastCity && Some(venue.state) == lastState {
        GroupJoinStep(venues, i, groups, shows, today);
        location := Some(location.value.(venues := location.value.venues + [summary]));
        groups := groups[..|groups| - 1] + [VenueGroup(LocationOf(venue), groups[|groups| - 1].members + [venue])];
      } else {
        GroupOpenStep(venues, i, groups, shows, today);
        if location.Some? {
          data := data + [location];
        }
        location := Some(Area(venue.city, venue.state, [summary]));
        groups := groups + [VenueGroup(LocationOf(venue), [venue])];
      }
      lastCity := Some(venue.city);
      lastState := Some(venue.state);
      i := i + 1;
    }
    if |venues| > 0 {
      assert venues[..i] == venues;
      assert groups == groups[..|groups| - 1] + [groups[|groups| - 1]];
      AreasSnoc(groups[..|groups| - 1], groups[|groups| - 1], shows, today);
      ListingOfGrouping(venues, shows, today);
    }
    areas := data + [location];
  }

  // ---------------------------------------------------------------------
  // Search
  // ---------------------------------------------------------------------

  /** A venue or an artist as a search lists it. */
  datatype SearchEntry = SearchEntry(id: int, name: string, numUpcomingShows: nat)

  datatype SearchResponse = SearchResponse(count: nat, data: seq<SearchEntry>)

  /** The number of shows whose own id is `id`: what the search handlers
      count as a venue's or an artist's upcoming shows. */
  function ShowsWithId(shows: seq<Show>, id: int): (r: nat)
    ensures r <= |shows|
    ensures r == 0 <==> forall s :: s in shows ==> s.id != id
  {
    var found := Filter(shows, (s: Show) => s.id == id);
    assert |found| > 0 ==> found[0] in found;
    |found|
  }

  /** The loop of the search handlers over the matched rows, given as
      (id, name) pairs; `countShows` gives each row's `num_upcoming_shows`. */
  method SearchResults(matched: seq<(int, string)>, countShows: int -> nat) returns (response: SearchResponse)
    ensures response.count == |matched| == |response.data|
    ensures forall k :: 0 <= k < |matched| ==>
      response.data[k] == SearchEntry(matched[k].0, matched[k].1, countShows(matched[k].0))
  {
    var data: seq<SearchEntry> := [];
    var i := 0;
    while i < |matched|
      invariant 0 <= i <= |matched|
      invariant |data| == i
      invariant forall k :: 0 <= k < i ==> data[k] == SearchEntry(matched[k].0, matched[k].1, countShows(matched[k].0))
    {
      data := data + [SearchEntry(matched[i].0, matched[i].1, countShows(matched[i].0))];
      i := i + 1;
    }
    response := SearchResponse(|matched|, data);
  }

  function VenueKeys(venues: seq<Venue>): seq<(int, string)> {
    seq(|venues|, k requires 0 <= k < |venues| => (venues[k].id, venues[k].name))
  }

  function ArtistKeys(artists: seq<Artist>): seq<(int, string)> {
    seq(|artists|, k requires 0 <= k < |artists| => (artists[k].id, artists[k].name))
  }

  /** POST /venues/search as written: the venues whose name matches, each
      with the number of shows whose id equals the venue's id. */
  method SearchVenues(venues: seq<Venue>, term: string, ilike: (string, string) -> bool, shows: seq<Show>)
    returns (response: SearchResponse)
    ensures var matched := Filter(venues, (v: Venue) => ilike(v.name, term));
      && response.count == |matched| == |response.data|
      && forall k :: 0 <= k < |matched| ==>
        response.data[k] == SearchEntry(matched[k].id, matched[k].name, ShowsWithId(shows, matched[k].id))
  {
    var matched := Filter(venues, (v: Venue) => ilike(v.name, term));
    response := SearchResults(VenueKeys(matched), id => ShowsWithId(shows, id));
  }

  /** POST /artists/search as written. */
  method SearchArtists(artists: seq<Artist>, term: string, ilike: (string, string) -> bool, shows: seq<Show>)
    returns (response: SearchResponse)
    ensures var matched := Filter(artists, (a: Artist) => ilike(a.name, term));
      && response.count == |matched| == |response.data|
      && forall k :: 0 <= k < |matched| ==>
        response.data[k] == SearchEntry(matched[k].id, matched[k].name, ShowsWithId(shows, matched[k].id))
  {
    var matched := Filter(artists, (a: Artist) => ilike(a.name, term));
    response := SearchResults(ArtistKeys(matched), id => ShowsWithId(shows, id));
  }

  /** Counting by show id misses upcoming shows: venue 1 and artist 3 share
      one upcoming show, whose id is 7, and both searches report 0 for them. */
  lemma SearchCountByShowId()
    ensures var shows := [Show(7, 100, 1, 3)];
      && ShowsWithId(shows, 1) == 0 && |UpcomingShows(shows, VenueOwner(1), 50)| == 1
      && ShowsWithId(shows, 3) == 0 && |UpcomingShows(shows, ArtistOwner(3), 50)| == 1
  {
    var shows := [Show(7, 100, 1, 3)];
    assert shows[1..] == [];
  }

  /** POST /venues/search counting what the listing counts: each matched
      venue's shows that start today or later. */
  method SearchVenuesUpcoming(venues: seq<Venue>, term: string, ilike: (string, string) -> bool, shows: seq<Show>, today: int)
    returns (response: SearchResponse)
    ensures var matched := Filter(venues, (v: Venue) => ilike(v.name, term));
      && response.count == |matched| == |response.data|
      && forall k :: 0 <= k < |matched| ==>
        && response.data[k].id == matched[k].id
        && response.data[k].name == matched[k].name
        && response.data[k].numUpcomingShows == Summary(matched[k], shows, today).numUpcomingShows
  {
    var matched := Filter(venues, (v: Venue) => ilike(v.name, term));
    response := SearchResults(VenueKeys(matched), id => |UpcomingShows(shows, VenueOwner(id), today)|);
  }

  /** POST /artists/search counting each matched artist's shows that start
      today or later, as the artist page does. */
  method SearchArtistsUpcoming(artists: seq<Artist>, term: string, ilike: (string, string) -> bool, shows: seq<Show>, today: int)
    returns (response: SearchResponse)
    ensures var matched := Filter(artists, (a: Artist) => ilike(a.name, term));
      && response.count == |matched| == |response.data|
      && forall k :: 0 <= k < |matched| ==>
        && response.data[k].id == matched[k].id
        && response.data[k].name == matched[k].name
        && response.data[k].numUpcomingShows == |UpcomingShows(shows, ArtistOwner(matched[k].id), today)|
  {
    var matched := Filter(artists, (a: Artist) => ilike(a.name, term));
    response := SearchResults(ArtistKeys(matched), id => |UpcomingShows(shows, ArtistOwner(id), today)|);
  }

  // ---------------------------------------------------------------------
  // The seeking flags in the forms
  // ---------------------------------------------------------------------

  /** The create and edit handlers: 'Yes' is True, any other answer False. */
  function SeekingFromForm(answer: string): (r: bool)
    ensures r <==> answer == "Yes"
  {
    answer == "Yes"
  }

  /** Python's `str` of a boolean. */
  function BoolText(b: bool): string {
    if b then "True" else "False"
  }

  /** The edit forms: `'Yes' if str(flag) == 'True' else 'No'`. */
  function SeekingToForm(flag: bool): (r: string)
    ensures r == "Yes" || r == "No"
    ensures r == "Yes" <==> flag
  {
    if BoolText(flag) == "True" then "Yes" else "No"
  }

  /** Loading a flag into the form and submitting it unchanged keeps it. */
  lemma FlagRoundTrip(flag: bool)
    ensures SeekingFromForm(SeekingToForm(flag)) == flag
  {
  }

  /** The two answers the form offers survive a save and a reload; any other
      text is read as False and comes back as 'No'. */
  lemma AnswerRoundTrip(answer: string)
    ensures answer == "Yes" || answer == "No" ==> SeekingToForm(SeekingFromForm(answer)) == answer
    ensures answer != "Yes" ==> !SeekingFromForm(answer) && SeekingToForm(SeekingFromForm(answer)) == "No"
  {
  }
}
