/** The records the episode finder reads, the read-only view of the
    database it queries, and the collaborators it calls: service and link
    handlers and the discussion platform. */
module Models {
  import opened Wrappers

  type ShowId = int
  type ServiceId = int
  type SiteId = int
  type Url = string

  datatype Show = Show(id: ShowId, name: string, enabled: bool, hasSource: bool, delayed: bool)

  /** A show on one service: `remoteOffset` maps the service's episode
      numbers to the show's own, `displayOffset` the show's own numbers to
      the ones shown in posts. */
  datatype Stream = Stream(show: ShowId, service: ServiceId, showKey: string,
                           remoteOffset: int, displayOffset: int, active: bool)

  /** An episode as a service reports it. */
  datatype Episode = Episode(number: int, name: Option<string>, isLive: bool)

  datatype Service = Service(id: ServiceId, key: string, name: string, enabled: bool, useInPost: bool)

  datatype LinkSite = LinkSite(id: SiteId, key: string, name: string, enabled: bool)

  datatype Link = Link(show: ShowId, site: SiteId, siteKey: string)

  /** A posted episode: the show, its own episode number and the post's URL. */
  datatype EpisodeRecord = EpisodeRecord(show: ShowId, number: int, link: Url)

  /** The database contents. Services, streams and links are listed in the
      order the database returns them. */
  datatype Db = Db(shows: map<ShowId, Show>, services: seq<Service>, streams: seq<Stream>,
                   sites: map<SiteId, LinkSite>, links: seq<Link>, episodes: seq<EpisodeRecord>)

  /** The service handlers (looked up by service) and the link handlers
      (looked up by site), as functions of their arguments. */
  datatype Handlers = Handlers(
    latestEpisode: (Service, Stream, string) -> Option<Episode>,
    streamLink: (Service, Stream) -> string,
    isGeneric: Service -> bool,
    linkText: (LinkSite, Link) -> string)

  /** The discussion platform: a text post to (destination, title, body)
      returns a post id or nothing; a post id has a short link. */
  datatype Platform = Platform(submit: (string, string, string) -> Option<string>, shortlink: string -> Url)

  datatype Config = Config(useragent: string, debug: bool, subreddit: string,
                           postTitle: string, postBody: string, postFormats: map<string, string>)

  /** `Stream.from_show(show)`: a stream that is stored nowhere, for
      probing generic services. */
  function StreamFromShow(show: Show): (s: Stream)
    ensures s.show == show.id && s.remoteOffset == 0 && s.displayOffset == 0
  {
    Stream(show.id, -1, show.name, 0, 0, true)
  }

  function Filter<T(!new)>(s: seq<T>, p: T -> bool): (r: seq<T>)
    ensures |r| <= |s|
    ensures forall x :: x in r <==> x in s && p(x)
  {
    if s == [] then [] else (if p(s[0]) then [s[0]] else []) + Filter(s[1..], p)
  }

  // ----- Database queries -----

  /** `db.get_services(enabled=True)`. */
  function EnabledServices(db: Db): seq<Service> {
    Filter(db.services, (s: Service) => s.enabled)
  }

  /** `db.get_service(id=...)`: the first service with that id, if any. */
  function FindService(services: seq<Service>, id: ServiceId): (r: Option<Service>)
    ensures r.Some? ==> r.value in services && r.value.id == id
    ensures r.None? ==> forall s :: s in services ==> s.id != id
  {
    if services == [] then None
    else if services[0].id == id then Some(services[0])
    else FindService(services[1..], id)
  }

  /** `db.get_streams(service=...)`. */
  function StreamsOfService(db: Db, service: Service): seq<Stream> {
    Filter(db.streams, (s: Stream) => s.service == service.id)
  }

  /** `db.get_streams(show=...)`. */
  function StreamsOfShow(db: Db, show: ShowId): seq<Stream> {
    Filter(db.streams, (s: Stream) => s.show == show)
  }

  /** `db.get_links(show=...)`. */
  function LinksOfShow(db: Db, show: ShowId): seq<Link> {
    Filter(db.links, (l: Link) => l.show == show)
  }

  /** `db.get_episodes(show)`: the posted episodes of a show, oldest first. */
  function EpisodesOfShow(db: Db, show: ShowId): seq<EpisodeRecord> {
    Filter(db.episodes, (e: EpisodeRecord) => e.show == show)
  }

  /** `db.get_show(stream=...)`. */
  function GetShow(db: Db, stream: Stream): Option<Show> {
    if stream.show in db.shows then Some(db.shows[stream.show]) else None
  }

  /** The stored episode record is for (show, number). */
  predicate IsRecordOf(e: EpisodeRecord, show: ShowId, number: int) {
    e.show == show && e.number == number
  }

  /** `db.stream_has_episode(stream, number)`, keyed by the stream's show. */
  predicate HasEpisode(db: Db, show: ShowId, number: int) {
    exists e :: e in db.episodes && IsRecordOf(e, show, number)
  }

  /** At most one record per (show, number): nothing was posted twice. */
  predicate Unique(episodes: seq<EpisodeRecord>) {
    forall i, j :: 0 <= i < j < |episodes| ==>
      !IsRecordOf(episodes[j], episodes[i].show, episodes[i].number)
  }

  /** Appending a record for a (show, number) not yet recorded keeps the
      records unique. */
  lemma UniqueAppend(episodes: seq<EpisodeRecord>, rec: EpisodeRecord)
    requires Unique(episodes)
    requires forall e :: e in episodes ==> !IsRecordOf(e, rec.show, rec.number)
    ensures Unique(episodes + [rec])
  {
    var all := episodes + [rec];
    forall i, j | 0 <= i < j < |all|
      ensures !IsRecordOf(all[j], all[i].show, all[i].number)
    {
      assert all[i] == episodes[i];
      if j == |episodes| {
        assert episodes[i] in episodes;
      } else {
        assert all[j] == episodes[j];
      }
    }
  }

  /** `db.get_shows(missing_stream=True)`: the shows no stream refers to. */
  function MissingStreamShows(db: Db): set<ShowId> {
    set id | id in db.shows && forall s :: s in db.streams ==> s.show != id
  }

  /** `db.get_shows(delayed=True)`. */
  function DelayedShows(db: Db): set<ShowId> {
    set id | id in db.shows && db.shows[id].delayed
  }

  /** `db.add_episode(show, number, link)`. */
  function AddEpisode(db: Db, show: ShowId, number: int, link: Url): (r: Db)
    ensures HasEpisode(r, show, number)
    ensures forall s, n :: HasEpisode(db, s, n) ==> HasEpisode(r, s, n)
    ensures r.episodes == db.episodes + [EpisodeRecord(show, number, link)]
    ensures r.(episodes := db.episodes) == db
  {
    var rec := EpisodeRecord(show, number, link);
    assert rec in db.episodes + [rec];
    db.(episodes := db.episodes + [rec])
  }

  /** `db.set_show_delayed(show, delayed)`; no effect on an unknown show. */
  function SetShowDelayed(db: Db, show: ShowId, delayed: bool): (r: Db)
    ensures r.shows.Keys == db.shows.Keys
    ensures show in db.shows ==> r.shows[show] == db.shows[show].(delayed := delayed)
    ensures forall id :: id in db.shows && id != show ==> r.shows[id] == db.shows[id]
    ensures r.(shows := db.shows) == db
  {
    if show in db.shows then db.(shows := db.shows[show := db.shows[show].(delayed := delayed)]) else db
  }
}
