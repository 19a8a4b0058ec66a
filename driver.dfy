/** `main`: the dedicated pass over every enabled service's streams, then
    the generic pass over the shows without streams or marked delayed. */
module Driver {
  import opened Wrappers
  import opened Models
  import opened Processor

  /** The database so far and whether an exception has ended the run. */
  datatype Run = Run(db: Db, halted: bool)

  /** One call of `_process_new_episode`; an exception out of it ends `main`. */
  function Step(run: Run, config: Config, handlers: Handlers, platform: Platform,
                show: Show, stream: Stream, episode: Episode): Run
  {
    var (db, outcome) := Process(run.db, config, handlers, platform, show, stream, episode);
    Run(db, outcome.Aborted?)
  }

  // ----- The dedicated pass -----

  /** One stream of a service: skipped without an enabled show or without an
      episode from the service, processed otherwise. */
  function CheckStream(run: Run, config: Config, handlers: Handlers, platform: Platform,
                       service: Service, stream: Stream): Run
  {
    if run.halted then run
    else match GetShow(run.db, stream)
      case None => run
      case Some(show) =>
        if !show.enabled then run
        else match handlers.latestEpisode(service, stream, config.useragent)
          case None => run
          case Some(episode) => Step(run, config, handlers, platform, show, stream, episode)
  }

  /** The streams of one service, in order. */
  function CheckStreams(run: Run, config: Config, handlers: Handlers, platform: Platform,
                        service: Service, streams: seq<Stream>): Run
  {
    if streams == [] then run
    else CheckStream(CheckStreams(run, config, handlers, platform, service, streams[..|streams| - 1]),
                     config, handlers, platform, service, streams[|streams| - 1])
  }

  /** The streams pass over the first `j + 1` streams extends the pass over
      the first `j` by one stream. */
  lemma CheckStreamsNext(run: Run, config: Config, handlers: Handlers, platform: Platform,
                         service: Service, streams: seq<Stream>, j: nat)
    requires j < |streams|
    ensures CheckStreams(run, config, handlers, platform, service, streams[..j + 1])
         == CheckStream(CheckStreams(run, config, handlers, platform, service, streams[..j]),
                        config, handlers, platform, service, streams[j])
  {
    assert streams[..j + 1][..j] == streams[..j];
  }

  /** The enabled services, in order, each over the streams the database
      lists for it when its turn comes. */
  function DedicatedPass(run: Run, config: Config, handlers: Handlers, platform: Platform,
                         services: seq<Service>): Run
  {
    if services == [] then run
    else
      var before := DedicatedPass(run, config, handlers, platform, services[..|services| - 1]);
      var service := services[|services| - 1];
      CheckStreams(before, config, handlers, platform, service, StreamsOfService(before.db, service))
  }

  /** The pass over the first `i + 1` services extends the pass over the
      first `i` by one service. */
  lemma DedicatedPassNext(run: Run, config: Config, handlers: Handlers, platform: Platform,
                          services: seq<Service>, i: nat)
    requires i < |services|
    ensures var before := DedicatedPass(run, config, handlers, platform, services[..i]);
            DedicatedPass(run, config, handlers, platform, services[..i + 1])
            == CheckStreams(before, config, handlers, platform, services[i], StreamsOfService(before.db, services[i]))
  {
    assert services[..i + 1][..i] == services[..i];
  }

  /** The dedicated pass of `main` over the database `db`. */
  function Dedicated(db: Db, config: Config, handlers: Handlers, platform: Platform): Run {
    DedicatedPass(Run(db, false), config, handlers, platform, EnabledServices(db))
  }

  // ----- The generic pass -----

  /** Whether the service is generic and has an episode for the stream. */
  predicate Hit(handlers: Handlers, service: Service, stream: Stream, useragent: string) {
    handlers.isGeneric(service) && handlers.latestEpisode(service, stream, useragent).Some?
  }

  /** The index of the first generic service that reports an episode. */
  function FirstGeneric(services: seq<Service>, handlers: Handlers, stream: Stream, useragent: string): (r: Option<nat>)
    ensures r.Some? ==> r.value < |services| && Hit(handlers, services[r.value], stream, useragent)
    ensures forall j :: 0 <= j < |services| && (r.None? || j < r.value) ==>
              !Hit(handlers, services[j], stream, useragent)
  {
    if services == [] then None
    else if Hit(handlers, services[0], stream, useragent) then Some(0)
    else match FirstGeneric(services[1..], handlers, stream, useragent)
      case None => None
      case Some(k) => Some(k + 1)
  }

  /** One show of the generic pass: its synthetic stream is offered to the
      generic services in order and the first episode found is processed. */
  function CheckGeneric(run: Run, config: Config, handlers: Handlers, platform: Platform,
                        services: seq<Service>, show: Show): Run
  {
    if run.halted then run
    else
      var stream := StreamFromShow(show);
      match FirstGeneric(services, handlers, stream, config.useragent)
      case None => run
      case Some(k) =>
        Step(run, config, handlers, platform, show, stream,
             handlers.latestEpisode(services[k], stream, config.useragent).value)
  }

  /** The shows of the generic pass, in the order visited. */
  function GenericPass(run: Run, config: Config, handlers: Handlers, platform: Platform,
                       services: seq<Service>, shows: seq<Show>): Run
  {
    if shows == [] then run
    else CheckGeneric(GenericPass(run, config, handlers, platform, services, shows[..|shows| - 1]),
                      config, handlers, platform, services, shows[|shows| - 1])
  }

  /** The shows the generic pass visits: those without a stream and those
      marked delayed. */
  function OtherShows(db: Db): (r: set<ShowId>)
    ensures forall id :: id in r <==> id in MissingStreamShows(db) || id in DelayedShows(db)
    ensures forall id :: id in r ==> id in db.shows
  {
    MissingStreamShows(db) + DelayedShows(db)
  }

  /** The show records for the visited ids, as loaded when the pass began. */
  function ShowsOf(shows: map<ShowId, Show>, order: seq<ShowId>): (r: seq<Show>)
    requires forall i :: 0 <= i < |order| ==> order[i] in shows
    ensures |r| == |order|
    ensures forall i :: 0 <= i < |order| ==> r[i] == shows[order[i]]
  {
    if order == [] then []
    else ShowsOf(shows, order[..|order| - 1]) + [shows[order[|order| - 1]]]
  }

  predicate NoDuplicates(order: seq<ShowId>) {
    forall i, j :: 0 <= i < j < |order| ==> order[i] != order[j]
  }

  // ----- main -----

  /** Checks one show against the generic services (the inner loop of the
      generic pass); true when processing raised. */
  method CheckShowGeneric(db: Store, config: Config, handlers: Handlers, platform: Platform,
                          services: seq<Service>, show: Show) returns (raised: bool)
    modifies db
    ensures Run(db.View(), raised) == CheckGeneric(Run(old(db.View()), false), config, handlers, platform, services, show)
  {
    var stream := StreamFromShow(show);
    raised := false;
    for k := 0 to |services|
      invariant db.View() == old(db.View())
      invariant forall j :: 0 <= j < k ==> !Hit(handlers, services[j], stream, config.useragent)
    {
      var service := services[k];
      if handlers.isGeneric(service) {
        var episode := handlers.latestEpisode(service, stream, config.useragent);
        if episode.None? {
          continue;
        }
        CheckGenericFirst(Run(db.View(), false), config, handlers, platform, services, show, k);
        var outcome := ProcessNewEpisode(db, config, handlers, platform, show, stream, episode.value);
        raised := outcome.Aborted?;
        return;
      }
    }
    CheckGenericNone(Run(db.View(), false), config, handlers, platform, services, show);
  }

  lemma CheckGenericFirst(run: Run, config: Config, handlers: Handlers, platform: Platform,
                          services: seq<Service>, show: Show, k: nat)
    requires !run.halted && k < |services|
    requires Hit(handlers, services[k], StreamFromShow(show), config.useragent)
    requires forall j :: 0 <= j < k ==> !Hit(handlers, services[j], StreamFromShow(show), config.useragent)
    ensures CheckGeneric(run, config, handlers, platform, services, show)
         == Step(run, config, handlers, platform, show, StreamFromShow(show),
                 handlers.latestEpisode(services[k], StreamFromShow(show), config.useragent).value)
  {
    var first := FirstGeneric(services, handlers, StreamFromShow(show), config.useragent);
    assert first == Some(k) by {
      if first.None? || first.value > k {
        assert false;
      }
    }
  }

  lemma CheckGenericNone(run: Run, config: Config, handlers: Handlers, platform: Platform,
                         services: seq<Service>, show: Show)
    requires forall j :: 0 <= j < |services| ==> !Hit(handlers, services[j], StreamFromShow(show), config.useragent)
    ensures CheckGeneric(run, config, handlers, platform, services, show) == run
  {
    var first := FirstGeneric(services, handlers, StreamFromShow(show), config.useragent);
    if first.Some? {
      assert false;
    }
  }

  /** The inner loop of the dedicated pass: the streams of one service;
      true when processing raised. */
  method CheckServiceStreams(db: Store, config: Config, handlers: Handlers, platform: Platform,
                             service: Service) returns (raised: bool)
    modifies db
    ensures Run(db.View(), raised)
         == CheckStreams(Run(old(db.View()), false), config, handlers, platform, service,
                         StreamsOfService(old(db.View()), service))
  {
    var streams := StreamsOfService(db.View(), service);
    ghost var start := Run(db.View(), false);
    for j := 0 to |streams|
      invariant Run(db.View(), false) == CheckStreams(start, config, handlers, platform, service, streams[..j])
    {
      CheckStreamsNext(start, config, handlers, platform, service, streams, j);
      var stream := streams[j];
      var show := GetShow(db.View(), stream);
      if show.None? || !show.value.enabled {
        continue;
      }
      var episode := handlers.latestEpisode(service, stream, config.useragent);
      if episode.None? {
        continue;
      }
      var outcome := ProcessNewEpisode(db, config, handlers, platform, show.value, stream, episode.value);
      if outcome.Aborted? {
        CheckStreamsHalted(start, config, handlers, platform, service, streams, j + 1);
        return true;
      }
    }
    assert streams[..|streams|] == streams;
    return false;
  }

  /** The dedicated pass: every service in order; true when processing
      raised, and then no later service is checked. */
  method CheckServices(db: Store, config: Config, handlers: Handlers, platform: Platform,
                       services: seq<Service>) returns (raised: bool)
    modifies db
    ensures Run(db.View(), raised) == DedicatedPass(Run(old(db.View()), false), config, handlers, platform, services)
  {
    ghost var start := Run(db.View(), false);
    for i := 0 to |services|
      invariant Run(db.View(), false) == DedicatedPass(start, config, handlers, platform, services[..i])
    {
      DedicatedPassNext(start, config, handlers, platform, services, i);
      raised := CheckServiceStreams(db, config, handlers, platform, services[i]);
      if raised {
        DedicatedHalted(start, config, handlers, platform, services, i + 1);
        return;
      }
    }
    assert services[..|services|] == services;
    return false;
  }

  /** The generic pass: each show without a stream or marked delayed, in an
      order the model leaves open (`order`), each as loaded before the pass;
      true when processing raised, and then no later show is checked. */
  method CheckOtherShows(db: Store, config: Config, handlers: Handlers, platform: Platform,
                         services: seq<Service>) returns (raised: bool, ghost order: seq<ShowId>)
    modifies db
    ensures NoDuplicates(order)
    ensures forall i :: 0 <= i < |order| ==> order[i] in OtherShows(old(db.View())) && order[i] in old(db.shows)
    ensures !raised ==> forall id :: id in OtherShows(old(db.View())) ==> id in order
    ensures Run(db.View(), raised)
         == GenericPass(Run(old(db.View()), false), config, handlers, platform, services,
                        ShowsOf(old(db.shows), order))
  {
    var shows := db.shows;
    var visit := Enumerate(OtherShows(db.View()));
    forall k | 0 <= k < |visit|
      ensures visit[k] in shows
    {
      assert visit[k] in visit;
    }
    ghost var count: nat;
    raised, count := VisitShows(db, config, handlers, platform, services, shows, visit);
    order := visit[..count];
    PrefixOfEnumeration(visit, OtherShows(old(db.View())), count);
  }

  /** The loop of the generic pass over the shows in `visit`; `count` of
      them were checked, all of them unless processing raised. */
  method VisitShows(db: Store, config: Config, handlers: Handlers, platform: Platform,
                    services: seq<Service>, shows: map<ShowId, Show>, visit: seq<ShowId>)
    returns (raised: bool, ghost count: nat)
    requires forall k :: 0 <= k < |visit| ==> visit[k] in shows
    modifies db
    ensures count <= |visit| && (!raised ==> count == |visit|)
    ensures Run(db.View(), raised)
         == GenericPass(Run(old(db.View()), false), config, handlers, platform, services, ShowsOf(shows, visit[..count]))
  {
    ghost var start := Run(db.View(), false);
    for i := 0 to |visit|
      invariant Run(db.View(), false) == GenericPass(start, config, handlers, platform, services, ShowsOf(shows, visit[..i]))
    {
      GenericPassNext(start, config, handlers, platform, services, shows, visit, i);
      raised := CheckShowGeneric(db, config, handlers, platform, services, shows[visit[i]]);
      if raised {
        return raised, i + 1;
      }
    }
    return false, |visit|;
  }

  /** What a prefix of an enumeration of `ids` keeps of it. */
  lemma PrefixOfEnumeration(order: seq<ShowId>, ids: set<ShowId>, count: nat)
    requires count <= |order| && NoDuplicates(order) && forall id :: id in order <==> id in ids
    ensures NoDuplicates(order[..count])
    ensures forall i :: 0 <= i < count ==> order[..count][i] in ids
    ensures count == |order| ==> forall id :: id in ids ==> id in order[..count]
  {
    forall i | 0 <= i < count
      ensures order[..count][i] in ids
    {
      assert order[i] in order;
    }
    assert count == |order| ==> order[..count] == order;
  }

  /** One more show of the generic pass. */
  lemma GenericPassNext(run: Run, config: Config, handlers: Handlers, platform: Platform,
                        services: seq<Service>, shows: map<ShowId, Show>, order: seq<ShowId>, i: nat)
    requires i < |order| && forall k :: 0 <= k < |order| ==> order[k] in shows
    ensures GenericPass(run, config, handlers, platform, services, ShowsOf(shows, order[..i + 1]))
         == CheckGeneric(GenericPass(run, config, handlers, platform, services, ShowsOf(shows, order[..i])),
                         config, handlers, platform, services, shows[order[i]])
  {
    assert order[..i + 1][..i] == order[..i];
    var done := ShowsOf(shows, order[..i]);
    assert ShowsOf(shows, order[..i + 1]) == done + [shows[order[i]]];
    assert (done + [shows[order[i]]])[..|done|] == done;
  }

  /** The ids of a set, each once, in an order the model leaves open (the
      iteration order of a Python set). */
  method Enumerate(ids: set<ShowId>) returns (order: seq<ShowId>)
    ensures NoDuplicates(order)
    ensures forall id :: id in order <==> id in ids
  {
    var remaining := ids;
    order := [];
    while remaining != {}
      invariant forall id :: id in order <==> id in ids && id !in remaining
      invariant remaining <= ids
      invariant NoDuplicates(order)
      decreases |remaining|
    {
      SomeMember(remaining);
      var id :| id in remaining;
      remaining, order := remaining - {id}, order + [id];
    }
  }

  lemma SomeMember(s: set<ShowId>)
    ensures s == {} || exists id :: id in s
  {
    if forall id :: id !in s {
      assert s == {};
    }
  }

  /** `main(config, db)`: both passes; `halted` when an exception ended it,
      `order` the ids of the shows the generic pass visited. */
  method FindEpisodes(db: Store, config: Config, handlers: Handlers, platform: Platform)
    returns (halted: bool, ghost order: seq<ShowId>)
    modifies db
    ensures var dedicated := Dedicated(old(db.View()), config, handlers, platform);
            && NoDuplicates(order)
            && (forall i :: 0 <= i < |order| ==> !dedicated.halted && order[i] in OtherShows(dedicated.db))
            && (!halted ==> forall id :: id in OtherShows(dedicated.db) ==> id in order)
            && Run(db.View(), halted) ==
               GenericPass(dedicated, config, handlers, platform, EnabledServices(old(db.View())),
                           ShowsOf(dedicated.db.shows, order))
  {
    var services := EnabledServices(db.View());
    halted := CheckServices(db, config, handlers, platform, services);
    if halted {
      return halted, [];
    }
    halted, order := CheckOtherShows(db, config, handlers, platform, services);
  }

  // ----- An exception ends main -----

  lemma {:induction false} CheckStreamsHalted(run: Run, config: Config, handlers: Handlers, platform: Platform,
                                              service: Service, streams: seq<Stream>, j: nat)
    requires j <= |streams| && CheckStreams(run, config, handlers, platform, service, streams[..j]).halted
    ensures CheckStreams(run, config, handlers, platform, service, streams)
         == CheckStreams(run, config, handlers, platform, service, streams[..j])
  {
    if j < |streams| {
      var init := streams[..|streams| - 1];
      assert init[..j] == streams[..j];
      CheckStreamsHalted(run, config, handlers, platform, service, init, j);
    } else {
      assert streams[..j] == streams;
    }
  }

  /** After an exception no later service is checked. */
  lemma {:induction false} DedicatedHalted(run: Run, config: Config, handlers: Handlers, platform: Platform,
                                           services: seq<Service>, i: nat)
    requires i <= |services| && DedicatedPass(run, config, handlers, platform, services[..i]).halted
    ensures DedicatedPass(run, config, handlers, platform, services)
         == DedicatedPass(run, config, handlers, platform, services[..i])
  {
    if i < |services| {
      var init := services[..|services| - 1];
      assert init[..i] == services[..i];
      DedicatedHalted(run, config, handlers, platform, init, i);
      var before := DedicatedPass(run, config, handlers, platform, init);
      CheckStreamsNoop(before, config, handlers, platform, services[|services| - 1],
                       StreamsOfService(before.db, services[|services| - 1]));
    } else {
      assert services[..i] == services;
    }
  }

  lemma {:induction false} CheckStreamsNoop(run: Run, config: Config, handlers: Handlers, platform: Platform,
                                            service: Service, streams: seq<Stream>)
    requires run.halted
    ensures CheckStreams(run, config, handlers, platform, service, streams) == run
  {
    if streams != [] {
      CheckStreamsNoop(run, config, handlers, platform, service, streams[..|streams| - 1]);
    }
  }

  /** After an exception no later show of the generic pass is checked. */
  lemma {:induction false} GenericHalted(run: Run, config: Config, handlers: Handlers, platform: Platform,
                                         services: seq<Service>, shows: seq<Show>)
    requires run.halted
    ensures GenericPass(run, config, handlers, platform, services, shows) == run
  {
    if shows != [] {
      GenericHalted(run, config, handlers, platform, services, shows[..|shows| - 1]);
    }
  }

  // ----- What a run keeps -----

  /** `after` extends `before`: the stored posts only grow and keep their
      uniqueness, every show keeps all its fields but the delayed flag, and
      every other table stays as it was. */
  predicate Grows(before: Db, after: Db) {
    && |before.episodes| <= |after.episodes|
    && after.episodes[..|before.episodes|] == before.episodes
    && (Unique(before.episodes) ==> Unique(after.episodes))
    && after.shows.Keys == before.shows.Keys
    && (forall id :: id in before.shows ==> after.shows[id] == before.shows[id].(delayed := after.shows[id].delayed))
    && after.(shows := before.shows, episodes := before.episodes) == before
  }

  lemma GrowsTransitive(a: Db, b: Db, c: Db)
    requires Grows(a, b) && Grows(b, c)
    ensures Grows(a, c)
  {
    assert c.episodes[..|a.episodes|] == c.episodes[..|b.episodes|][..|a.episodes|];
  }

  lemma StepGrows(run: Run, config: Config, handlers: Handlers, platform: Platform,
                  show: Show, stream: Stream, episode: Episode)
    ensures Grows(run.db, Step(run, config, handlers, platform, show, stream, episode).db)
  {
    if Unique(run.db.episodes) {
      ProcessKeepsUnique(run.db, config, handlers, platform, show, stream, episode);
    }
    if Process(run.db, config, handlers, platform, show, stream, episode).1.Committed? {
      CommitEffect(run.db, config, handlers, platform, show, stream, episode);
    }
  }

  lemma {:induction false} CheckStreamsGrows(run: Run, config: Config, handlers: Handlers, platform: Platform,
                                             service: Service, streams: seq<Stream>)
    ensures Grows(run.db, CheckStreams(run, config, handlers, platform, service, streams).db)
  {
    if streams != [] {
      var before := CheckStreams(run, config, handlers, platform, service, streams[..|streams| - 1]);
      CheckStreamsGrows(run, config, handlers, platform, service, streams[..|streams| - 1]);
      var stream := streams[|streams| - 1];
      if !before.halted && GetShow(before.db, stream).Some? {
        var show := GetShow(before.db, stream).value;
        var episode := handlers.latestEpisode(service, stream, config.useragent);
        if show.enabled && episode.Some? {
          StepGrows(before, config, handlers, platform, show, stream, episode.value);
          GrowsTransitive(run.db, before.db, Step(before, config, handlers, platform, show, stream, episode.value).db);
        }
      }
    }
  }

  /** The dedicated pass only adds records, keeps them unique and changes
      nothing but records and delayed flags. */
  lemma {:induction false} DedicatedGrows(run: Run, config: Config, handlers: Handlers, platform: Platform,
                                          services: seq<Service>)
    ensures Grows(run.db, DedicatedPass(run, config, handlers, platform, services).db)
  {
    if services != [] {
      var before := DedicatedPass(run, config, handlers, platform, services[..|services| - 1]);
      var service := services[|services| - 1];
      DedicatedGrows(run, config, handlers, platform, services[..|services| - 1]);
      CheckStreamsGrows(before, config, handlers, platform, service, StreamsOfService(before.db, service));
      GrowsTransitive(run.db, before.db,
                      CheckStreams(before, config, handlers, platform, service, StreamsOfService(before.db, service)).db);
    }
  }

  /** Checking one show generically adds at most one record, and only for
      that show; a record added for a show loaded as delayed clears its flag. */
  lemma CheckGenericAtMostOne(run: Run, config: Config, handlers: Handlers, platform: Platform,
                              services: seq<Service>, show: Show)
    ensures var after := CheckGeneric(run, config, handlers, platform, services, show).db;
            && Grows(run.db, after)
            && |after.episodes| <= |run.db.episodes| + 1
            && (forall i :: |run.db.episodes| <= i < |after.episodes| ==> after.episodes[i].show == show.id)
            && (|after.episodes| > |run.db.episodes| && show.delayed && show.id in after.shows ==>
                  !after.shows[show.id].delayed)
  {
    var stream := StreamFromShow(show);
    var first := FirstGeneric(services, handlers, stream, config.useragent);
    if !run.halted && first.Some? {
      var episode := handlers.latestEpisode(services[first.value], stream, config.useragent).value;
      StepGrows(run, config, handlers, platform, show, stream, episode);
      if Process(run.db, config, handlers, platform, show, stream, episode).1.Committed? {
        CommitEffect(run.db, config, handlers, platform, show, stream, episode);
      }
    }
  }

  lemma {:induction false} GenericGrows(run: Run, config: Config, handlers: Handlers, platform: Platform,
                                        services: seq<Service>, shows: seq<Show>)
    ensures Grows(run.db, GenericPass(run, config, handlers, platform, services, shows).db)
  {
    if shows != [] {
      var before := GenericPass(run, config, handlers, platform, services, shows[..|shows| - 1]);
      GenericGrows(run, config, handlers, platform, services, shows[..|shows| - 1]);
      CheckGenericAtMostOne(before, config, handlers, platform, services, shows[|shows| - 1]);
      GrowsTransitive(run.db, before.db,
                      CheckGeneric(before, config, handlers, platform, services, shows[|shows| - 1]).db);
    }
  }

  /** A whole run of `main`, in whatever order the generic pass visits the
      shows, never stores a post twice and never loses one. */
  lemma RunGrows(db: Db, config: Config, handlers: Handlers, platform: Platform, shows: seq<Show>)
    ensures var dedicated := Dedicated(db, config, handlers, platform);
            Grows(db, GenericPass(dedicated, config, handlers, platform, EnabledServices(db), shows).db)
  {
    var dedicated := Dedicated(db, config, handlers, platform);
    DedicatedGrows(Run(db, false), config, handlers, platform, EnabledServices(db));
    GenericGrows(dedicated, config, handlers, platform, EnabledServices(db), shows);
    GrowsTransitive(db, dedicated.db,
                    GenericPass(dedicated, config, handlers, platform, EnabledServices(db), shows).db);
  }

  // ----- Dry runs -----

  lemma {:induction false} CheckStreamsDry(run: Run, config: Config, handlers: Handlers, platform: Platform,
                                           service: Service, streams: seq<Stream>)
    requires config.debug
    ensures CheckStreams(run, config, handlers, platform, service, streams).db == run.db
  {
    if streams != [] {
      CheckStreamsDry(run, config, handlers, platform, service, streams[..|streams| - 1]);
    }
  }

  /** With `debug` set the dedicated pass changes nothing. */
  lemma {:induction false} DedicatedDry(run: Run, config: Config, handlers: Handlers, platform: Platform,
                                        services: seq<Service>)
    requires config.debug
    ensures DedicatedPass(run, config, handlers, platform, services).db == run.db
  {
    if services != [] {
      var before := DedicatedPass(run, config, handlers, platform, services[..|services| - 1]);
      DedicatedDry(run, config, handlers, platform, services[..|services| - 1]);
      CheckStreamsDry(before, config, handlers, platform, services[|services| - 1],
                      StreamsOfService(before.db, services[|services| - 1]));
    }
  }

  /** With `debug` set the generic pass changes nothing. */
  lemma {:induction false} GenericDry(run: Run, config: Config, handlers: Handlers, platform: Platform,
                                      services: seq<Service>, shows: seq<Show>)
    requires config.debug
    ensures GenericPass(run, config, handlers, platform, services, shows).db == run.db
  {
    if shows != [] {
      GenericDry(run, config, handlers, platform, services, shows[..|shows| - 1]);
    }
  }
}
