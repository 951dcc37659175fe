/**
 * The show lists of a venue page and an artist page (`show_venue`,
 * `show_artist`): an entity's shows are split against the current time into
 * upcoming and past ones, each kept show becomes one projected record, and
 * each list's length is recorded as its count.
 */
module Shows {
  import opened Wrappers
  import opened TextOrder
  import opened SeqFilter
  import Clock

  datatype Show = Show(id: nat, venueId: nat, artistId: nat, startTime: string)

  datatype Venue = Venue(
    id: nat, name: string, city: string, state: string, address: string, phone: string,
    imageLink: string, genres: seq<string>, facebookLink: string, website: string,
    seekingTalent: bool, seekingDescription: string)

  datatype Artist = Artist(
    id: nat, name: string, city: string, state: string, phone: string,
    imageLink: string, genres: seq<string>, facebookLink: string, website: string,
    seekingVenue: bool, seekingDescription: string)

  /** The stored rows: venues and artists by id, and every show in query order. */
  datatype Store = Store(venues: map<nat, Venue>, artists: map<nat, Artist>, shows: seq<Show>)

  /** The show lists of a detail page, with the projected record type `D`. */
  datatype ShowsSection<D> = ShowsSection(
    pastShows: seq<D>, upcomingShows: seq<D>, pastShowsCount: nat, upcomingShowsCount: nat)

  /** The page's error branch, taken for an unknown id or a failing projection. */
  datatype PageError = NotFound

  predicate IsUpcoming(s: Show, now: string) {
    StrLess(now, s.startTime)
  }

  predicate IsPast(s: Show, now: string) {
    StrLess(s.startTime, now)
  }

  /** The shows whose start time is strictly later than `now`, in query order. */
  function UpcomingShows(shows: seq<Show>, now: string): (r: seq<Show>)
    ensures forall i :: 0 <= i < |r| ==> StrLess(now, r[i].startTime)
    ensures forall s :: s in r <==> s in shows && StrLess(now, s.startTime)
  {
    Filter(shows, (s: Show) => IsUpcoming(s, now))
  }

  /** The shows whose start time is strictly earlier than `now`, in query order. */
  function PastShows(shows: seq<Show>, now: string): (r: seq<Show>)
    ensures forall i :: 0 <= i < |r| ==> StrLess(r[i].startTime, now)
    ensures forall s :: s in r <==> s in shows && StrLess(s.startTime, now)
  {
    Filter(shows, (s: Show) => IsPast(s, now))
  }

  /** The shows that start exactly at `now`; neither query returns them. */
  function TiedShows(shows: seq<Show>, now: string): (r: seq<Show>)
    ensures forall s :: s in r <==> s in shows && s.startTime == now
  {
    Filter(shows, (s: Show) => s.startTime == now)
  }

  /** Each query keeps the order in which the shows are stored. */
  lemma ShowQueriesKeepOrder(store: Store, shows: seq<Show>, now: string, venueId: nat, artistId: nat)
    ensures IsSubsequence(UpcomingShows(shows, now), shows)
    ensures IsSubsequence(PastShows(shows, now), shows)
    ensures IsSubsequence(VenueShows(store, venueId), store.shows)
    ensures IsSubsequence(ArtistShows(store, artistId), store.shows)
  {
  }

  /**
   * Every show is upcoming, past or tied, and exactly one of them, so the
   * three lists together hold each show exactly as often as the entity does.
   */
  lemma PartitionAccountsForEveryShow(shows: seq<Show>, now: string)
    ensures multiset(UpcomingShows(shows, now)) + multiset(PastShows(shows, now)) + multiset(TiedShows(shows, now))
      == multiset(shows)
    ensures |UpcomingShows(shows, now)| + |PastShows(shows, now)| + |TiedShows(shows, now)| == |shows|
  {
    forall s | s in shows
      ensures (IsUpcoming(s, now) && !IsPast(s, now) && s.startTime != now)
        || (!IsUpcoming(s, now) && IsPast(s, now) && s.startTime != now)
        || (!IsUpcoming(s, now) && !IsPast(s, now) && s.startTime == now)
    {
      StrLessTrichotomy(now, s.startTime);
      StrLessAsymmetric(now, s.startTime);
      StrLessIrreflexive(now);
    }
    FilterSplit3(shows, (s: Show) => IsUpcoming(s, now), (s: Show) => IsPast(s, now), (s: Show) => s.startTime == now);
  }

  /** A show that starts exactly at `now` is in neither list. */
  lemma TieInNeither(shows: seq<Show>, now: string, s: Show)
    requires s.startTime == now
    ensures s !in UpcomingShows(shows, now) && s !in PastShows(shows, now)
  {
    StrLessIrreflexive(now);
  }

  /** No show is both upcoming and past. */
  lemma UpcomingPastDisjoint(shows: seq<Show>, now: string, s: Show)
    ensures !(s in UpcomingShows(shows, now) && s in PastShows(shows, now))
  {
    StrLessAsymmetric(now, s.startTime);
  }

  /** A kept show, upcoming or past, whose projection fails. */
  ghost predicate SomeProjectionFails<D>(shows: seq<Show>, now: string, details: Show -> Option<D>) {
    exists s :: (s in UpcomingShows(shows, now) || s in PastShows(shows, now)) && details(s).None?
  }

  /**
   * The show lists of a page: one projected record per upcoming and per past
   * show, in the same order, with each count equal to its list's length.  A
   * projection that fails (an unparsable start time, say) fails the page.
   */
  function BuildShowsSection<D>(shows: seq<Show>, now: string, details: Show -> Option<D>)
    : (r: Result<ShowsSection<D>, PageError>)
    ensures r.Failure? <==> SomeProjectionFails(shows, now, details)
    ensures r.Success? ==> r.value.upcomingShowsCount == |r.value.upcomingShows| == |UpcomingShows(shows, now)|
    ensures r.Success? ==> r.value.pastShowsCount == |r.value.pastShows| == |PastShows(shows, now)|
    ensures r.Success? ==> forall i :: 0 <= i < |r.value.upcomingShows| ==>
      details(UpcomingShows(shows, now)[i]) == Some(r.value.upcomingShows[i])
    ensures r.Success? ==> forall i :: 0 <= i < |r.value.pastShows| ==>
      details(PastShows(shows, now)[i]) == Some(r.value.pastShows[i])
    ensures r.Success? ==> r.value.upcomingShowsCount + r.value.pastShowsCount + |TiedShows(shows, now)| == |shows|
  {
    var upcoming := UpcomingShows(shows, now);
    var past := PastShows(shows, now);
    var upcomingData := ProjectAll(upcoming, details);
    var pastData := ProjectAll(past, details);
    PartitionAccountsForEveryShow(shows, now);
    if upcomingData.None? || pastData.None? then
      Failure(NotFound)
    else
      Success(ShowsSection(pastData.value, upcomingData.value, |past|, |upcoming|))
  }

  /** The shows held at a venue: the stored shows whose venue is `venueId`, in query order. */
  function VenueShows(store: Store, venueId: nat): (r: seq<Show>)
    ensures forall s :: s in r <==> s in store.shows && s.venueId == venueId
  {
    Filter(store.shows, (s: Show) => s.venueId == venueId)
  }

  /** The shows an artist plays: the stored shows whose artist is `artistId`, in query order. */
  function ArtistShows(store: Store, artistId: nat): (r: seq<Show>)
    ensures forall s :: s in r <==> s in store.shows && s.artistId == artistId
  {
    Filter(store.shows, (s: Show) => s.artistId == artistId)
  }

  /**
   * The show lists of a venue page against the current-time string `now`,
   * each show projected with its artist's details.  An unknown venue, or a
   * kept show whose projection fails, takes the error branch.
   */
  function ShowVenue<D>(store: Store, venueId: nat, now: string, artistDetails: Show -> Option<D>)
    : (r: Result<ShowsSection<D>, PageError>)
    ensures r.Failure? <==> venueId !in store.venues || SomeProjectionFails(VenueShows(store, venueId), now, artistDetails)
    ensures r.Success? ==>
      r.value.upcomingShowsCount == |UpcomingShows(VenueShows(store, venueId), now)|
    ensures r.Success? ==>
      r.value.pastShowsCount == |PastShows(VenueShows(store, venueId), now)|
    ensures r.Success? ==> r.value.upcomingShowsCount + r.value.pastShowsCount <= |VenueShows(store, venueId)|
  {
    if venueId !in store.venues then Failure(NotFound)
    else BuildShowsSection(VenueShows(store, venueId), now, artistDetails)
  }

  /**
   * The show lists of an artist page against the current-time string `now`,
   * each show projected with its venue's details.  An unknown artist, or a
   * kept show whose projection fails, takes the error branch.
   */
  function ShowArtist<D>(store: Store, artistId: nat, now: string, venueDetails: Show -> Option<D>)
    : (r: Result<ShowsSection<D>, PageError>)
    ensures r.Failure? <==> artistId !in store.artists || SomeProjectionFails(ArtistShows(store, artistId), now, venueDetails)
    ensures r.Success? ==>
      r.value.upcomingShowsCount == |UpcomingShows(ArtistShows(store, artistId), now)|
    ensures r.Success? ==>
      r.value.pastShowsCount == |PastShows(ArtistShows(store, artistId), now)|
    ensures r.Success? ==> r.value.upcomingShowsCount + r.value.pastShowsCount <= |ArtistShows(store, artistId)|
  {
    if artistId !in store.artists then Failure(NotFound)
    else BuildShowsSection(ArtistShows(store, artistId), now, venueDetails)
  }

  /**
   * A known venue's page fails when any of its shows not starting exactly at
   * `now` cannot be projected, because every such show is upcoming or past.
   */
  lemma FailingProjectionFailsVenuePage<D>(store: Store, venueId: nat, now: string, artistDetails: Show -> Option<D>, s: Show)
    requires s in store.shows && s.venueId == venueId
    requires s.startTime != now
    requires artistDetails(s).None?
    ensures ShowVenue(store, venueId, now, artistDetails).Failure?
  {
    StrLessTrichotomy(now, s.startTime);
    assert s in UpcomingShows(VenueShows(store, venueId), now) || s in PastShows(VenueShows(store, venueId), now);
  }

  /**
   * With the corrected clock format, a venue's upcoming shows are exactly its
   * stored shows that start after the wall-clock reading.
   */
  lemma VenueUpcomingMeansLater(store: Store, venueId: nat, clock: Clock.DateTime, s: Show, t: Clock.DateTime)
    requires Clock.Valid(clock) && Clock.Valid(t)
    requires s.startTime == Clock.FormatCurrentTime(t)
    ensures s in UpcomingShows(VenueShows(store, venueId), Clock.FormatCurrentTime(clock)) <==>
      s in store.shows && s.venueId == venueId && Clock.Before(clock, t)
  {
    Clock.CurrentTimeOrderFaithful(clock, t);
  }

  /**
   * With the format as written, a show a quarter of an hour ahead of the
   * clock is listed as past and not as upcoming.
   */
  lemma SwappedClockMisfilesShow()
    ensures var clock := Clock.DateTime(2020, 1, 1, 10, 5, 30);
            var s := Show(1, 1, 1, Clock.FormatCurrentTime(Clock.DateTime(2020, 1, 1, 10, 20, 0)));
            Clock.Before(clock, Clock.DateTime(2020, 1, 1, 10, 20, 0)) &&
            PastShows([s], Clock.FormatCurrentTimeAsWritten(clock)) == [s] &&
            UpcomingShows([s], Clock.FormatCurrentTimeAsWritten(clock)) == [] &&
            UpcomingShows([s], Clock.FormatCurrentTime(clock)) == [s]
  {
    var clock := Clock.DateTime(2020, 1, 1, 10, 5, 30);
    var t := Clock.DateTime(2020, 1, 1, 10, 20, 0);
    var s := Show(1, 1, 1, Clock.FormatCurrentTime(t));
    Clock.AsWrittenMisordersShowTime();
    StrLessAsymmetric(s.startTime, Clock.FormatCurrentTimeAsWritten(clock));
    Clock.CurrentTimeOrderFaithful(clock, t);
  }
}
