/** The four text blocks a post can include: the spoiler warning, the
    streams, the links and the earlier discussions of a show. */
module Blocks {
  import opened Wrappers
  import opened Text
  import opened SafeFormat
  import opened Models

  /** `formats[key]`; None is the KeyError of a missing entry. */
  function Format(formats: map<string, string>, key: string): Option<string> {
    if key in formats then Some(formats[key]) else None
  }

  /** What one loop iteration of a block generator does with one element:
      raise, skip it, or append a line. */
  datatype Entry = Raise | Skip | Line(text: string)

  /** The list a generator's loop builds from `xs`, or None if an
      iteration raises. */
  function Collect<T>(xs: seq<T>, f: T -> Entry): Option<seq<string>>
    decreases |xs|
  {
    if xs == [] then Some([])
    else
      var prev :- Collect(xs[..|xs| - 1], f);
      match f(xs[|xs| - 1])
      case Raise => None
      case Skip => Some(prev)
      case Line(t) => Some(prev + [t])
  }

  /** Once an iteration has raised, the whole loop has. */
  lemma {:induction false} CollectRaises<T>(xs: seq<T>, f: T -> Entry, i: nat)
    requires i <= |xs| && Collect(xs[..i], f).None?
    ensures Collect(xs, f).None?
    decreases |xs| - i
  {
    if i < |xs| {
      assert xs[..i + 1][..i] == xs[..i];
      CollectRaises(xs, f, i + 1);
    } else {
      assert xs[..i] == xs;
    }
  }

  /** One more iteration of a generator's loop. */
  lemma CollectNext<T>(xs: seq<T>, f: T -> Entry, i: nat, texts: seq<string>)
    requires i < |xs| && Collect(xs[..i], f) == Some(texts)
    ensures f(xs[i]) == Skip ==> Collect(xs[..i + 1], f) == Some(texts)
    ensures f(xs[i]).Line? ==> Collect(xs[..i + 1], f) == Some(texts + [f(xs[i]).text])
  {
    assert xs[..i + 1][..i] == xs[..i];
  }

  /** An iteration that raises ends the whole loop. */
  lemma CollectStops<T>(xs: seq<T>, f: T -> Entry, i: nat)
    requires i < |xs| && Collect(xs[..i], f).Some? && f(xs[i]) == Raise
    ensures Collect(xs, f).None?
  {
    assert xs[..i + 1][..i] == xs[..i];
    CollectRaises(xs, f, i + 1);
  }

  function Map<T>(xs: seq<T>, g: T -> string): (r: seq<string>)
    ensures |r| == |xs| && forall k :: 0 <= k < |xs| ==> r[k] == g(xs[k])
  {
    if xs == [] then [] else [g(xs[0])] + Map(xs[1..], g)
  }

  lemma MapSnoc<T>(xs: seq<T>, x: T, g: T -> string)
    ensures Map(xs + [x], g) == Map(xs, g) + [g(x)]
  {
  }

  lemma {:induction false} FilterSnoc<T(!new)>(xs: seq<T>, x: T, p: T -> bool)
    ensures Filter(xs + [x], p) == Filter(xs, p) + (if p(x) then [x] else [])
    decreases |xs|
  {
    if xs == [] {
      assert [x][1..] == [];
    } else {
      assert (xs + [x])[1..] == xs[1..] + [x];
      FilterSnoc(xs[1..], x, p);
    }
  }

  /** A loop that appends `g(x)` for each element satisfying `p` and skips
      the others builds the mapped, filtered list, in order. */
  lemma {:induction false} CollectFilterMap<T(!new)>(xs: seq<T>, f: T -> Entry, p: T -> bool, g: T -> string)
    requires forall x :: x in xs ==> f(x) == if p(x) then Line(g(x)) else Skip
    ensures Collect(xs, f) == Some(Map(Filter(xs, p), g))
    decreases |xs|
  {
    if xs != [] {
      var init, x := xs[..|xs| - 1], xs[|xs| - 1];
      assert xs == init + [x];
      assert forall y :: y in init ==> y in xs;
      CollectFilterMap(init, f, p, g);
      CollectFilterMapNext(init, x, f, p, g);
    }
  }

  /** One iteration of the loop `CollectFilterMap` describes. */
  lemma CollectFilterMapNext<T(!new)>(init: seq<T>, x: T, f: T -> Entry, p: T -> bool, g: T -> string)
    requires Collect(init, f) == Some(Map(Filter(init, p), g))
    requires f(x) == if p(x) then Line(g(x)) else Skip
    ensures Collect(init + [x], f) == Some(Map(Filter(init + [x], p), g))
  {
    var xs := init + [x];
    assert xs[..|xs| - 1] == init && xs[|xs| - 1] == x;
    FilterSnoc(init, x, p);
    var prev := Map(Filter(init, p), g);
    if p(x) {
      assert Collect(xs, f) == Some(prev + [g(x)]);
      assert Filter(xs, p) == Filter(init, p) + [x];
      MapSnoc(Filter(init, p), x, g);
    } else {
      assert Collect(xs, f) == Some(prev);
      assert Filter(xs, p) == Filter(init, p) + [];
      assert Filter(init, p) + [] == Filter(init, p);
    }
  }

  // ----- Spoiler -----

  /** `_gen_text_spoiler`: the spoiler warning for a show adapted from a
      source, nothing otherwise. */
  function SpoilerBlock(formats: map<string, string>, show: Show): (r: Option<string>)
    ensures !show.hasSource ==> r == Some("")
    ensures show.hasSource ==> (r.Some? <==> "spoiler" in formats)
    ensures show.hasSource && r.Some? ==> r.value == formats["spoiler"]
  {
    if show.hasSource then Format(formats, "spoiler") else Some("")
  }

  // ----- Streams -----

  /** The substitutions for one line of the streams block. */
  function StreamEnv(handlers: Handlers, service: Service, stream: Stream): map<string, string> {
    map["service_name" := service.name, "stream_link" := handlers.streamLink(service, stream)]
  }

  /** A stream appears in the block when it is active and its service is
      enabled and meant for posts. */
  predicate Qualifies(db: Db, stream: Stream) {
    var service := FindService(db.services, stream.service);
    stream.active && service.Some? && service.value.enabled && service.value.useInPost
  }

  /** One iteration of the streams loop. An active stream whose service is
      missing raises (attribute access on `None`). */
  function StreamEntry(db: Db, formats: map<string, string>, handlers: Handlers, stream: Stream): Entry {
    if !stream.active then Skip
    else
      match FindService(db.services, stream.service)
      case None => Raise
      case Some(service) =>
        if !(service.enabled && service.useInPost) then Skip
        else if "stream" !in formats then Raise
        else
          match Render(formats["stream"], StreamEnv(handlers, service, stream))
          case None => Raise
          case Some(t) => Line(t)
  }

  function StreamEntries(db: Db, formats: map<string, string>, handlers: Handlers): Stream -> Entry {
    s => StreamEntry(db, formats, handlers, s)
  }

  /** `_gen_text_streams`. */
  function StreamsBlock(db: Db, formats: map<string, string>, handlers: Handlers, show: Show): Option<string> {
    var streams := StreamsOfShow(db, show.id);
    if |streams| > 0 then
      var texts :- Collect(streams, StreamEntries(db, formats, handlers));
      Some(Join(texts, "\n"))
    else Some("*None*")
  }

  method GenTextStreams(db: Db, formats: map<string, string>, handlers: Handlers, show: Show) returns (r: Option<string>)
    ensures r == StreamsBlock(db, formats, handlers, show)
  {
    var streams := StreamsOfShow(db, show.id);
    if |streams| > 0 {
      ghost var f := StreamEntries(db, formats, handlers);
      var texts: seq<string> := [];
      for i := 0 to |streams|
        invariant Collect(streams[..i], f) == Some(texts)
      {
        var stream := streams[i];
        if stream.active {
          var service := FindService(db.services, stream.service);
          if service.None? {
            CollectStops(streams, f, i);
            return None;
          }
          if service.value.enabled && service.value.useInPost {
            if "stream" !in formats {
              CollectStops(streams, f, i);
              return None;
            }
            var text := Render(formats["stream"], StreamEnv(handlers, service.value, stream));
            if text.None? {
              CollectStops(streams, f, i);
              return None;
            }
            assert f(stream) == Line(text.value);
            CollectNext(streams, f, i, texts);
            texts := texts + [text.value];
          } else {
            CollectNext(streams, f, i, texts);
          }
        } else {
          CollectNext(streams, f, i, texts);
        }
      }
      assert streams[..|streams|] == streams;
      r := Some(Join(texts, "\n"));
    } else {
      r := Some("*None*");
    }
  }

  // ----- Links -----

  function LinkEnv(handlers: Handlers, site: LinkSite, link: Link): map<string, string> {
    map["site_name" := site.name, "link" := handlers.linkText(site, link)]
  }

  /** One iteration of the links loop. A link whose site is missing raises. */
  function LinkEntry(db: Db, formats: map<string, string>, handlers: Handlers, link: Link): Entry {
    if link.site !in db.sites then Raise
    else
      var site := db.sites[link.site];
      if !site.enabled then Skip
      else if "link" !in formats then Raise
      else
        match Render(formats["link"], LinkEnv(handlers, site, link))
        case None => Raise
        case Some(t) => Line(t)
  }

  function LinkEntries(db: Db, formats: map<string, string>, handlers: Handlers): Link -> Entry {
    l => LinkEntry(db, formats, handlers, l)
  }

  /** `_gen_text_links`. */
  function LinksBlock(db: Db, formats: map<string, string>, handlers: Handlers, show: Show): Option<string> {
    var texts :- Collect(LinksOfShow(db, show.id), LinkEntries(db, formats, handlers));
    Some(Join(texts, "\n"))
  }

  method GenTextLinks(db: Db, formats: map<string, string>, handlers: Handlers, show: Show) returns (r: Option<string>)
    ensures r == LinksBlock(db, formats, handlers, show)
  {
    var links := LinksOfShow(db, show.id);
    ghost var f := LinkEntries(db, formats, handlers);
    var texts: seq<string> := [];
    for i := 0 to |links|
      invariant Collect(links[..i], f) == Some(texts)
    {
      var link := links[i];
      if link.site !in db.sites {
        CollectStops(links, f, i);
        return None;
      }
      var site := db.sites[link.site];
      if site.enabled {
        if "link" !in formats {
          CollectStops(links, f, i);
          return None;
        }
        var text := Render(formats["link"], LinkEnv(handlers, site, link));
        if text.None? {
          CollectStops(links, f, i);
          return None;
        }
        assert f(link) == Line(text.value);
        CollectNext(links, f, i, texts);
        texts := texts + [text.value];
      } else {
        CollectNext(links, f, i, texts);
      }
    }
    assert links[..|links|] == links;
    r := Some(Join(texts, "\n"));
  }

  // ----- Discussions -----

  function DiscussionEnv(e: EpisodeRecord): map<string, string> {
    map["episode_num" := IntToString(e.number), "episode_link" := e.link]
  }

  /** One row of the discussions table. */
  function DiscussionEntry(formats: map<string, string>, e: EpisodeRecord): Entry {
    if "discussion" !in formats then Raise
    else
      match Render(formats["discussion"], DiscussionEnv(e))
      case None => Raise
      case Some(t) => Line(t)
  }

  function DiscussionEntries(formats: map<string, string>): EpisodeRecord -> Entry {
    e => DiscussionEntry(formats, e)
  }

  /** `_gen_text_discussions`. */
  function DiscussionsBlock(db: Db, formats: map<string, string>, show: Show): Option<string> {
    var episodes := EpisodesOfShow(db, show.id);
    if |episodes| > 0 then
      var header :- Format(formats, "discussion_header");
      var rows :- Collect(episodes, DiscussionEntries(formats));
      Some(Join([header] + rows, "\n"))
    else Format(formats, "discussion_none")
  }

  method GenTextDiscussions(db: Db, formats: map<string, string>, show: Show) returns (r: Option<string>)
    ensures r == DiscussionsBlock(db, formats, show)
  {
    var episodes := EpisodesOfShow(db, show.id);
    if |episodes| > 0 {
      if "discussion_header" !in formats {
        return None;
      }
      ghost var f := DiscussionEntries(formats);
      var table := [formats["discussion_header"]];
      for i := 0 to |episodes|
        invariant Collect(episodes[..i], f).Some?
        invariant table == [formats["discussion_header"]] + Collect(episodes[..i], f).value
      {
        var episode := episodes[i];
        if "discussion" !in formats {
          CollectStops(episodes, f, i);
          return None;
        }
        var row := Render(formats["discussion"], DiscussionEnv(episode));
        if row.None? {
          CollectStops(episodes, f, i);
          return None;
        }
        assert f(episode) == Line(row.value);
        CollectNext(episodes, f, i, Collect(episodes[..i], f).value);
        table := table + [row.value];
      }
      assert episodes[..|episodes|] == episodes;
      r := Some(Join(table, "\n"));
    } else {
      r := Format(formats, "discussion_none");
    }
  }

  // ----- What the blocks contain -----

  function QualifiesIn(db: Db): Stream -> bool {
    s => Qualifies(db, s)
  }

  /** The line for a qualifying stream: the `stream` format with the
      service's name and the handler's link for the stream substituted.
      This is the line `StreamEntry` yields; the empty fallbacks are never
      reached under the requires of the lemmas that use it. */
  function StreamText(db: Db, formats: map<string, string>, handlers: Handlers, stream: Stream): string {
    match FindService(db.services, stream.service)
    case Some(service) =>
      if "stream" in formats then Render(formats["stream"], StreamEnv(handlers, service, stream)).GetOr("") else ""
    case None => ""
  }

  function StreamTexts(db: Db, formats: map<string, string>, handlers: Handlers): Stream -> string {
    s => StreamText(db, formats, handlers, s)
  }

  /** Every active stream the loop reaches names a known service. */
  predicate ActiveStreamsResolve(db: Db, streams: seq<Stream>) {
    forall s :: s in streams && s.active ==> FindService(db.services, s.service).Some?
  }

  /** The streams the loop reaches all resolve to a service and the
      `stream` format is well formed, so no iteration raises. */
  predicate StreamsResolve(db: Db, formats: map<string, string>, streams: seq<Stream>) {
    "stream" in formats && Parse(formats["stream"]).Some? && ActiveStreamsResolve(db, streams)
  }

  /** A show with streams gets one line per qualifying stream, in stream
      order, joined by newlines. */
  lemma StreamsBlockLines(db: Db, formats: map<string, string>, handlers: Handlers, show: Show)
    requires |StreamsOfShow(db, show.id)| > 0
    requires StreamsResolve(db, formats, StreamsOfShow(db, show.id))
    ensures StreamsBlock(db, formats, handlers, show)
         == Some(Join(Map(Filter(StreamsOfShow(db, show.id), QualifiesIn(db)), StreamTexts(db, formats, handlers)), "\n"))
  {
    var streams := StreamsOfShow(db, show.id);
    var f, p, g := StreamEntries(db, formats, handlers), QualifiesIn(db), StreamTexts(db, formats, handlers);
    forall s | s in streams
      ensures f(s) == if p(s) then Line(g(s)) else Skip
    {
      if s.active {
        var service := FindService(db.services, s.service).value;
        if service.enabled && service.useInPost {
          assert Render(formats["stream"], StreamEnv(handlers, service, s)).Some?;
        }
      }
    }
    CollectFilterMap(streams, f, p, g);
  }

  /** A show with no stream at all gets the `*None*` marker. */
  lemma StreamsBlockNoStreams(db: Db, formats: map<string, string>, handlers: Handlers, show: Show)
    requires StreamsOfShow(db, show.id) == []
    ensures StreamsBlock(db, formats, handlers, show) == Some("*None*")
  {
  }

  /** A show whose streams all fail to qualify gets an empty block, not the
      `*None*` marker. */
  lemma StreamsBlockNoneQualify(db: Db, formats: map<string, string>, handlers: Handlers, show: Show)
    requires |StreamsOfShow(db, show.id)| > 0
    requires ActiveStreamsResolve(db, StreamsOfShow(db, show.id))
    requires forall s :: s in StreamsOfShow(db, show.id) ==> !Qualifies(db, s)
    ensures StreamsBlock(db, formats, handlers, show) == Some("")
  {
    var streams := StreamsOfShow(db, show.id);
    var f, p, g := StreamEntries(db, formats, handlers), QualifiesIn(db), StreamTexts(db, formats, handlers);
    forall s | s in streams
      ensures f(s) == Skip
    {
    }
    CollectFilterMap(streams, f, p, g);
    FilterNone(streams, p);
    assert Map([], g) == [];
  }

  lemma {:induction false} FilterNone<T(!new)>(xs: seq<T>, p: T -> bool)
    requires forall x :: x in xs ==> !p(x)
    ensures Filter(xs, p) == []
    decreases |xs|
  {
    if xs != [] {
      assert forall x :: x in xs[1..] ==> x in xs;
      FilterNone(xs[1..], p);
    }
  }

  function SiteEnabledIn(db: Db): Link -> bool {
    (l: Link) => l.site in db.sites && db.sites[l.site].enabled
  }

  /** The line for a link on an enabled site: the `link` format with the
      site's name and the handler's text for the link substituted. This is
      the line `LinkEntry` yields; the empty fallbacks are never reached
      under the requires of the lemmas that use it. */
  function LinkText(db: Db, formats: map<string, string>, handlers: Handlers, link: Link): string {
    if link.site in db.sites && "link" in formats then
      Render(formats["link"], LinkEnv(handlers, db.sites[link.site], link)).GetOr("")
    else ""
  }

  function LinkTexts(db: Db, formats: map<string, string>, handlers: Handlers): Link -> string {
    l => LinkText(db, formats, handlers, l)
  }

  /** The links block has one line per link whose site is enabled, in link
      order, joined by newlines (empty when there is none). */
  lemma LinksBlockLines(db: Db, formats: map<string, string>, handlers: Handlers, show: Show)
    requires "link" in formats && Parse(formats["link"]).Some?
    requires forall l :: l in LinksOfShow(db, show.id) ==> l.site in db.sites
    ensures LinksBlock(db, formats, handlers, show)
         == Some(Join(Map(Filter(LinksOfShow(db, show.id), SiteEnabledIn(db)), LinkTexts(db, formats, handlers)), "\n"))
  {
    var links := LinksOfShow(db, show.id);
    var f, p, g := LinkEntries(db, formats, handlers), SiteEnabledIn(db), LinkTexts(db, formats, handlers);
    forall l | l in links
      ensures f(l) == if p(l) then Line(g(l)) else Skip
    {
      var site := db.sites[l.site];
      if site.enabled {
        assert Render(formats["link"], LinkEnv(handlers, site, l)).Some?;
      }
    }
    CollectFilterMap(links, f, p, g);
  }

  /** The row for a posted episode: the `discussion` format with the
      episode's number and post link substituted. This is the row
      `DiscussionEntry` yields; the empty fallbacks are never reached under
      the requires of the lemmas that use it. */
  function DiscussionText(formats: map<string, string>, e: EpisodeRecord): string {
    if "discussion" in formats then Render(formats["discussion"], DiscussionEnv(e)).GetOr("") else ""
  }

  function DiscussionTexts(formats: map<string, string>): EpisodeRecord -> string {
    e => DiscussionText(formats, e)
  }

  function Always<T>(): T -> bool {
    x => true
  }

  /** A show with posted episodes gets the header and then one row per
      episode, oldest first. */
  lemma DiscussionsBlockTable(db: Db, formats: map<string, string>, show: Show)
    requires |EpisodesOfShow(db, show.id)| > 0
    requires "discussion_header" in formats
    requires "discussion" in formats && Parse(formats["discussion"]).Some?
    ensures DiscussionsBlock(db, formats, show)
         == Some(Join([formats["discussion_header"]] + Map(EpisodesOfShow(db, show.id), DiscussionTexts(formats)), "\n"))
  {
    var episodes := EpisodesOfShow(db, show.id);
    var f, g := DiscussionEntries(formats), DiscussionTexts(formats);
    forall e | e in episodes
      ensures f(e) == if Always<EpisodeRecord>()(e) then Line(g(e)) else Skip
    {
      assert Render(formats["discussion"], DiscussionEnv(e)).Some?;
    }
    CollectFilterMap(episodes, f, Always(), g);
    FilterAll(episodes);
  }

  lemma {:induction false} FilterAll<T(!new)>(xs: seq<T>)
    ensures Filter(xs, Always()) == xs
    decreases |xs|
  {
    if xs != [] {
      FilterAll(xs[1..]);
      assert xs == [xs[0]] + xs[1..];
    }
  }

  /** With single-line rows, the discussions block of a show with n posted
      episodes has exactly 1 + n lines: the header and one per episode. */
  lemma DiscussionsLineCount(db: Db, formats: map<string, string>, show: Show)
    requires |EpisodesOfShow(db, show.id)| > 0
    requires "discussion_header" in formats && NoNewline(formats["discussion_header"])
    requires "discussion" in formats && Parse(formats["discussion"]).Some?
    requires forall e :: e in EpisodesOfShow(db, show.id) ==> NoNewline(DiscussionText(formats, e))
    ensures DiscussionsBlock(db, formats, show).Some?
    ensures |Lines(DiscussionsBlock(db, formats, show).value)| == 1 + |EpisodesOfShow(db, show.id)|
  {
    var episodes := EpisodesOfShow(db, show.id);
    var rows := Map(episodes, DiscussionTexts(formats));
    DiscussionsBlockTable(db, formats, show);
    var table := [formats["discussion_header"]] + rows;
    forall k | 0 <= k < |table|
      ensures NoNewline(table[k])
    {
      if k > 0 {
        assert table[k] == DiscussionText(formats, episodes[k - 1]);
        assert episodes[k - 1] in episodes;
      }
    }
    LinesOfJoin(table);
  }

  /** A show with no posted episode gets the `discussion_none` text. */
  lemma DiscussionsBlockEmpty(db: Db, formats: map<string, string>, show: Show)
    requires EpisodesOfShow(db, show.id) == []
    ensures DiscussionsBlock(db, formats, show) == Format(formats, "discussion_none")
  {
  }
}
