/** `_process_new_episode`: the step from a discovered episode to at most
    one post and one stored record, over the database as an object. */
module Processor {
  import opened Wrappers
  import opened Models
  import opened Text
  import opened Composer

  /** The database as the episode finder sees it. Only the shows' `delayed`
      flags and the posted episodes ever change. */
  class Store {
    var shows: map<ShowId, Show>
    const services: seq<Service>
    const streams: seq<Stream>
    const sites: map<SiteId, LinkSite>
    const links: seq<Link>
    var episodes: seq<EpisodeRecord>

    function View(): Db
      reads this
    {
      Db(shows, services, streams, sites, links, episodes)
    }

    constructor (db: Db)
      ensures View() == db
    {
      shows, services, streams, sites, links, episodes := db.shows, db.services, db.streams, db.sites, db.links, db.episodes;
    }

    /** `db.stream_has_episode(stream, number)`: a record for the stream's
        show and that number exists. */
    predicate StreamHasEpisode(stream: Stream, number: int)
      reads this
    {
      HasEpisode(View(), stream.show, number)
    }

    /** `db.add_episode(show, number, link)`. */
    method AddEpisode(show: ShowId, number: int, link: Url)
      modifies this
      ensures View() == Models.AddEpisode(old(View()), show, number, link)
    {
      episodes := episodes + [EpisodeRecord(show, number, link)];
    }

    /** `db.set_show_delayed(show, delayed)`. */
    method SetShowDelayed(show: Show, delayed: bool)
      modifies this
      ensures View() == Models.SetShowDelayed(old(View()), show.id, delayed)
    {
      if show.id in shows {
        shows := shows[show.id := shows[show.id].(delayed := delayed)];
      }
    }
  }

  /** How processing one episode ends; `Aborted` is an exception leaving it. */
  datatype Outcome = NotLive | AlreadySeen | Committed(url: Url) | NotSubmitted | Aborted

  /** The show's own number for an episode a stream reports: the service's
      number minus the stream's offset, whatever its sign. */
  function Canonical(episode: Episode, stream: Stream): int {
    episode.number - stream.remoteOffset
  }

  /** Recording a post: the record under the stream's show, then the show is
      no longer delayed if it was. */
  function Commit(db: Db, show: Show, stream: Stream, number: int, url: Url): Db {
    var added := AddEpisode(db, stream.show, number, url);
    if show.delayed then SetShowDelayed(added, show.id, false) else added
  }

  /** The end of processing once the post was attempted. */
  function Settle(db: Db, show: Show, stream: Stream, number: int, published: Publish): (Db, Outcome) {
    match published
    case Raised => (db, Aborted)
    case Returned(None) => (db, NotSubmitted)
    case Returned(Some(url)) => (Commit(db, show, stream, number, url), Committed(url))
  }

  /** `_process_new_episode(config, db, show, stream, episode)` on the
      database `db`: the database afterwards and how it ended. */
  function Process(db: Db, config: Config, handlers: Handlers, platform: Platform,
                   show: Show, stream: Stream, episode: Episode): (r: (Db, Outcome))
    ensures r.1.Committed? || r.0 == db
    ensures r.1 == NotLive <==> !episode.isLive
    ensures r.1 == AlreadySeen <==> episode.isLive && HasEpisode(db, stream.show, Canonical(episode, stream))
    ensures r.1.Committed? ==>
              && episode.isLive && !HasEpisode(db, stream.show, Canonical(episode, stream))
              && !config.debug
              && r.0 == Commit(db, show, stream, Canonical(episode, stream), r.1.url)
    ensures var published := CreateRedditPost(config, db, handlers, platform, show, stream,
                                              episode.(number := Canonical(episode, stream)), !config.debug);
            && (r.1.Committed? ==> published == Returned(Some(r.1.url)))
            && (r.1 == NotSubmitted <==>
                  episode.isLive && !HasEpisode(db, stream.show, Canonical(episode, stream)) && published == Returned(None))
            && (r.1 == Aborted <==>
                  episode.isLive && !HasEpisode(db, stream.show, Canonical(episode, stream)) && published.Raised?)
  {
    if !episode.isLive then (db, NotLive)
    else
      var number := Canonical(episode, stream);
      if HasEpisode(db, stream.show, number) then (db, AlreadySeen)
      else Settle(db, show, stream, number,
                  CreateRedditPost(config, db, handlers, platform, show, stream, episode.(number := number), !config.debug))
  }

  method ProcessNewEpisode(db: Store, config: Config, handlers: Handlers, platform: Platform,
                           show: Show, stream: Stream, episode: Episode) returns (outcome: Outcome)
    modifies db
    ensures (db.View(), outcome) == Process(old(db.View()), config, handlers, platform, show, stream, episode)
  {
    var before := db.View();
    if episode.isLive {
      var adjusted := episode.(number := Canonical(episode, stream));
      var alreadySeen := db.StreamHasEpisode(stream, adjusted.number);
      if !alreadySeen {
        var postUrl := CreateRedditPost(config, before, handlers, platform, show, stream, adjusted, !config.debug);
        match postUrl {
          case Raised =>
            outcome := Aborted;
          case Returned(None) =>
            outcome := NotSubmitted;
          case Returned(Some(url)) =>
            db.AddEpisode(stream.show, adjusted.number, url);
            if show.delayed {
              db.SetShowDelayed(show, false);
            }
            outcome := Committed(url);
        }
      } else {
        outcome := AlreadySeen;
      }
    } else {
      outcome := NotLive;
    }
  }

  // ----- What processing guarantees -----

  /** Processing never stores a second record for a (show, number): the
      uniqueness of stored posts is kept. */
  lemma ProcessKeepsUnique(db: Db, config: Config, handlers: Handlers, platform: Platform,
                           show: Show, stream: Stream, episode: Episode)
    requires Unique(db.episodes)
    ensures Unique(Process(db, config, handlers, platform, show, stream, episode).0.episodes)
  {
    var (after, outcome) := Process(db, config, handlers, platform, show, stream, episode);
    if outcome.Committed? {
      var rec := EpisodeRecord(stream.show, Canonical(episode, stream), outcome.url);
      assert after.episodes == db.episodes + [rec];
      UniqueAppend(db.episodes, rec);
    }
  }

  /** Processing the same live episode again after it was posted neither
      posts nor changes anything, whatever the show record says by then. */
  lemma ProcessTwice(db: Db, config: Config, handlers: Handlers, platform: Platform,
                     show: Show, show': Show, stream: Stream, episode: Episode)
    requires Process(db, config, handlers, platform, show, stream, episode).1.Committed?
    ensures var after := Process(db, config, handlers, platform, show, stream, episode).0;
            Process(after, config, handlers, platform, show', stream, episode) == (after, AlreadySeen)
  {
    var (after, outcome) := Process(db, config, handlers, platform, show, stream, episode);
    var rec := EpisodeRecord(stream.show, Canonical(episode, stream), outcome.url);
    assert after.episodes == db.episodes + [rec];
    assert rec in after.episodes;
  }

  /** A post that was composed but not made (the platform returned no
      post, or the dry-run setting kept it back) changes nothing and, for a
      live new episode, ends as `NotSubmitted` with no record behind: a
      later run tries again. */
  lemma NotSubmittedLeavesNoRecord(db: Db, config: Config, handlers: Handlers, platform: Platform,
                                   show: Show, stream: Stream, episode: Episode)
    requires var adjusted := episode.(number := Canonical(episode, stream));
             && PostContents(config, db, handlers, show, stream, adjusted).Some?
             && var (title, body) := PostContents(config, db, handlers, show, stream, adjusted).value;
             config.debug || platform.submit(config.subreddit, title, body).None?
    ensures Process(db, config, handlers, platform, show, stream, episode).0 == db
    ensures episode.isLive && !HasEpisode(db, stream.show, Canonical(episode, stream)) ==>
              && Process(db, config, handlers, platform, show, stream, episode).1 == NotSubmitted
              && !HasEpisode(Process(db, config, handlers, platform, show, stream, episode).0,
                             stream.show, Canonical(episode, stream))
  {
  }

  /** With `debug` set nothing is ever stored or cleared. */
  lemma DebugChangesNothing(db: Db, config: Config, handlers: Handlers, platform: Platform,
                            show: Show, stream: Stream, episode: Episode)
    requires config.debug
    ensures Process(db, config, handlers, platform, show, stream, episode).0 == db
  {
  }

  /** A successful post stores exactly one record, under the stream's show
      and the canonical number, with the short link, and clears the show's
      delayed flag; every other show is left alone. */
  lemma CommitEffect(db: Db, config: Config, handlers: Handlers, platform: Platform,
                     show: Show, stream: Stream, episode: Episode)
    requires Process(db, config, handlers, platform, show, stream, episode).1.Committed?
    ensures var (after, outcome) := Process(db, config, handlers, platform, show, stream, episode);
            && after.episodes == db.episodes + [EpisodeRecord(stream.show, Canonical(episode, stream), outcome.url)]
            && HasEpisode(after, stream.show, Canonical(episode, stream))
            && after.shows.Keys == db.shows.Keys
            && (show.id in db.shows ==> !after.shows[show.id].delayed || (!show.delayed && db.shows[show.id].delayed))
            && (forall id :: id in db.shows && id != show.id ==> after.shows[id] == db.shows[id])
            && (show.id in db.shows ==> after.shows[show.id] == db.shows[show.id].(delayed := after.shows[show.id].delayed))
            && after.(shows := db.shows, episodes := db.episodes) == db
    ensures var adjusted := episode.(number := Canonical(episode, stream));
            && PostContents(config, db, handlers, show, stream, adjusted).Some?
            && var (title, body) := PostContents(config, db, handlers, show, stream, adjusted).value;
            && platform.submit(config.subreddit, title, body).Some?
            && Process(db, config, handlers, platform, show, stream, episode).1.url
               == platform.shortlink(platform.submit(config.subreddit, title, body).value)
  {
  }

  /** With the title format `{episode}`, the post made for an episode is
      titled with the service's number minus the stream's remote offset plus
      its display offset. */
  lemma PostedTitle(db: Db, config: Config, handlers: Handlers, platform: Platform,
                    show: Show, stream: Stream, episode: Episode)
    requires config.postTitle == Token("episode")
    requires Process(db, config, handlers, platform, show, stream, episode).1.Committed?
    ensures var adjusted := episode.(number := Canonical(episode, stream));
            && PostContents(config, db, handlers, show, stream, adjusted).Some?
            && PostContents(config, db, handlers, show, stream, adjusted).value.0
               == IntToString(episode.number - stream.remoteOffset + stream.displayOffset)
  {
    DisplayNumber(config, db, handlers, show, stream, episode.(number := Canonical(episode, stream)));
  }

  /** A delayed show whose stream is the synthetic one and whose episode 5
      is live and new: the post is made and stored under number 5, and the
      show is no longer delayed. */
  lemma DelayedShowPosted(db: Db, config: Config, handlers: Handlers, platform: Platform,
                          show: Show, url: Url)
    requires show.id in db.shows && show.delayed && !config.debug
    requires !HasEpisode(db, show.id, 5)
    requires var episode := Episode(5, None, true);
             var stream := StreamFromShow(show);
             && PostContents(config, db, handlers, show, stream, episode).Some?
             && var (title, body) := PostContents(config, db, handlers, show, stream, episode).value;
             && platform.submit(config.subreddit, title, body).Some?
             && platform.shortlink(platform.submit(config.subreddit, title, body).value) == url
    ensures var (after, outcome) := Process(db, config, handlers, platform, show, StreamFromShow(show), Episode(5, None, true));
            && outcome == Committed(url)
            && HasEpisode(after, show.id, 5)
            && !after.shows[show.id].delayed
  {
    var stream := StreamFromShow(show);
    var episode := Episode(5, None, true);
    assert episode.(number := Canonical(episode, stream)) == episode;
  }
}
