/** `_format_post_text`, `_create_post_contents` and `_create_reddit_post`:
    a post's title and body from the configured templates, and its
    submission. */
module Composer {
  import opened Wrappers
  import opened Text
  import opened SafeFormat
  import opened Models
  import opened Blocks

  /** The literal token whose presence in the text runs a block generator. */
  function Token(key: string): string {
    "{" + key + "}"
  }

  /** One conditional pass of the composer: where `{key}` occurs in the text,
      the text is rendered with the block as `key` (and fails if the block's
      generator raised); elsewhere the text is kept and the block is not
      consulted at all. */
  function FillBlock(text: string, key: string, block: Option<string>): (r: Option<string>)
    ensures !Contains(text, Token(key)) ==> r == Some(text)
    ensures Contains(text, Token(key)) && block.None? ==> r.None?
    ensures Contains(text, Token(key)) && block.Some? ==> r == Render(text, map[key := block.value])
  {
    if Contains(text, Token(key)) then
      var b :- block;
      Render(text, map[key := b])
    else Some(text)
  }

  /** The suffix after the show name: empty for an episode without a name
      (Python's `None` or `""`), otherwise `": "` and the name. */
  function EpisodeNameSuffix(name: Option<string>): (r: string)
    ensures r == [] <==> name.None? || name.value == []
    ensures r != [] ==> |r| >= 2 && r[..2] == ": " && r[2..] == name.value
  {
    if name.Some? && name.value != [] then ": " + name.value else ""
  }

  /** The values of the final pass, which every template may use. */
  function PostEnv(show: Show, number: int, name: Option<string>): map<string, string> {
    map["show_name" := show.name, "episode" := IntToString(number), "episode_name" := EpisodeNameSuffix(name)]
  }

  /** `_format_post_text(db, text, formats, show, episode, stream)`: four
      conditional block passes in order, each rendering the output of the
      previous one, then the final pass with `env` (the values `PostEnv`
      builds from the show, episode and stream), then `strip()`. None where
      a pass or a generator raises. */
  function PostText(db: Db, handlers: Handlers, text: string, formats: map<string, string>,
                    show: Show, env: map<string, string>): (r: Option<string>)
    ensures r.Some? ==> Stripped(r.value)
  {
    var t4 :- BlockPasses(text, SpoilerBlock(formats, show), StreamsBlock(db, formats, handlers, show),
                          LinksBlock(db, formats, handlers, show), DiscussionsBlock(db, formats, show));
    Finish(t4, env)
  }

  /** The four block passes, each over the previous one's output, with the
      blocks the generators would produce. */
  function BlockPasses(text: string, spoiler: Option<string>, streams: Option<string>,
                       links: Option<string>, discussions: Option<string>): Option<string>
  {
    var t1 :- FillBlock(text, "spoiler", spoiler);
    var t2 :- FillBlock(t1, "streams", streams);
    var t3 :- FillBlock(t2, "links", links);
    FillBlock(t3, "discussions", discussions)
  }

  /** The final pass with the show's values, then `strip()`. */
  function Finish(text: string, env: map<string, string>): (r: Option<string>)
    ensures r.Some? ==> Stripped(r.value)
  {
    var t :- Render(text, env);
    Some(Strip(t))
  }

  /** `_create_post_contents`: the title, then the body, both composed with
      the same final-pass values; raises when either raises. */
  function PostContents(config: Config, db: Db, handlers: Handlers,
                        show: Show, stream: Stream, episode: Episode): (r: Option<(string, string)>)
    ensures var env := PostEnv(show, episode.number + stream.displayOffset, episode.name);
            r.None? <==> PostText(db, handlers, config.postTitle, config.postFormats, show, env).None?
                         || PostText(db, handlers, config.postBody, config.postFormats, show, env).None?
    ensures var env := PostEnv(show, episode.number + stream.displayOffset, episode.name);
            r.Some? ==> r.value == (PostText(db, handlers, config.postTitle, config.postFormats, show, env).value,
                                    PostText(db, handlers, config.postBody, config.postFormats, show, env).value)
    ensures r.Some? ==> Stripped(r.value.0) && Stripped(r.value.1)
  {
    var env := PostEnv(show, episode.number + stream.displayOffset, episode.name);
    var title :- PostText(db, handlers, config.postTitle, config.postFormats, show, env);
    var body :- PostText(db, handlers, config.postBody, config.postFormats, show, env);
    Some((title, body))
  }

  /** What `_create_reddit_post` does: raise (while composing), or return a
      URL or `None`. */
  datatype Publish = Raised | Returned(url: Option<Url>)

  /** `_create_reddit_post(..., submit)`: composes the post, and only when
      `submit` is set sends it and turns the new post's id into its short
      link. */
  function CreateRedditPost(config: Config, db: Db, handlers: Handlers, platform: Platform,
                            show: Show, stream: Stream, episode: Episode, submit: bool): (r: Publish)
    ensures r.Raised? <==> PostContents(config, db, handlers, show, stream, episode).None?
    ensures !submit ==> r.Raised? || r == Returned(None)
    ensures r.Returned? && r.url.Some? ==>
              var (title, body) := PostContents(config, db, handlers, show, stream, episode).value;
              submit && platform.submit(config.subreddit, title, body).Some?
              && r.url.value == platform.shortlink(platform.submit(config.subreddit, title, body).value)
    ensures submit && PostContents(config, db, handlers, show, stream, episode).Some? ==>
              var (title, body) := PostContents(config, db, handlers, show, stream, episode).value;
              && (platform.submit(config.subreddit, title, body).Some? ==>
                    r == Returned(Some(platform.shortlink(platform.submit(config.subreddit, title, body).value))))
              && (platform.submit(config.subreddit, title, body).None? ==> r == Returned(None))
  {
    match PostContents(config, db, handlers, show, stream, episode)
    case None => Raised
    case Some((title, body)) =>
      if submit then
        match platform.submit(config.subreddit, title, body)
        case Some(id) => Returned(Some(platform.shortlink(id)))
        case None => Returned(None)
      else Returned(None)
  }

  // ----- Properties of the composed text -----

  lemma IntToStringStripped(i: int)
    ensures Stripped(IntToString(i)) && BraceFree(IntToString(i))
  {
    var s := IntToString(i);
    IntToStringRoundTrip(i);
    assert forall k :: 0 <= k < |s| ==> IsDigit(s[k]) || s[k] == '-' by {
      if !AllDigits(s) {
        assert forall k :: 1 <= k < |s| ==> s[k] == s[1..][k - 1];
      }
    }
  }

  /** The only block token a lone field `{name}` contains is its own. */
  lemma FieldToken(name: string, key: string)
    requires BraceFree(name)
    ensures Contains(Token(name), Token(key)) ==> name == key
  {
    var t, tok := Token(name), Token(key);
    if Contains(t, tok) {
      ContainsAt(t, tok);
      var i :| OccursAt(t, tok, i);
      assert forall j :: 1 <= j <= |name| ==> t[j] == name[j - 1];
      assert t[i] == tok[0] == '{';
      assert i == 0;
      var last := |key| + 1;
      assert t[last] == tok[last] == '}';
      assert last == |name| + 1;
      assert name == t[1..last] == tok[1..last] == key;
    }
  }

  /** Once the spoiler pass has left no other block token, the streams,
      links and discussions passes change nothing and only the final pass
      remains. */
  lemma OnlySpoilerPass(db: Db, handlers: Handlers, text: string, formats: map<string, string>,
                        show: Show, env: map<string, string>, t1: string)
    requires FillBlock(text, "spoiler", SpoilerBlock(formats, show)) == Some(t1)
    requires !Contains(t1, Token("streams")) && !Contains(t1, Token("links")) && !Contains(t1, Token("discussions"))
    ensures PostText(db, handlers, text, formats, show, env) == Finish(t1, env)
  {
    LaterPassesKeep(text, SpoilerBlock(formats, show), StreamsBlock(db, formats, handlers, show),
                    LinksBlock(db, formats, handlers, show), DiscussionsBlock(db, formats, show), t1);
  }

  lemma LaterPassesKeep(text: string, spoiler: Option<string>, streams: Option<string>,
                        links: Option<string>, discussions: Option<string>, t1: string)
    requires FillBlock(text, "spoiler", spoiler) == Some(t1)
    requires !Contains(t1, Token("streams")) && !Contains(t1, Token("links")) && !Contains(t1, Token("discussions"))
    ensures BlockPasses(text, spoiler, streams, links, discussions) == Some(t1)
  {
  }

  /** A template that is one placeholder other than a block token
      composes to that placeholder's value from the final pass (or to the
      placeholder itself when the final pass does not supply it), stripped. */
  lemma LonePlaceholder(db: Db, handlers: Handlers, formats: map<string, string>,
                        show: Show, env: map<string, string>, name: string)
    requires IsKey(name) && BraceFree(name)
    requires name != "spoiler" && name != "streams" && name != "links" && name != "discussions"
    ensures PostText(db, handlers, Token(name), formats, show, env) == Some(Strip(Lookup(env, name)))
  {
    FieldToken(name, "spoiler");
    FieldToken(name, "streams");
    FieldToken(name, "links");
    FieldToken(name, "discussions");
    OnlySpoilerPass(db, handlers, Token(name), formats, show, env, Token(name));
    RenderToken(name, env);
  }

  /** A post titled `{episode}` is titled with the episode's number plus
      the stream's display offset, written in decimal, whatever its sign
      (and `IntToStringRoundTrip` reads it back as that number). */
  lemma DisplayNumber(config: Config, db: Db, handlers: Handlers, show: Show, stream: Stream, episode: Episode)
    requires config.postTitle == Token("episode")
    ensures var n := episode.number + stream.displayOffset;
            PostText(db, handlers, config.postTitle, config.postFormats, show, PostEnv(show, n, episode.name))
            == Some(IntToString(n))
    ensures PostContents(config, db, handlers, show, stream, episode).Some? ==>
              PostContents(config, db, handlers, show, stream, episode).value.0
              == IntToString(episode.number + stream.displayOffset)
  {
    var n := episode.number + stream.displayOffset;
    EpisodeKey();
    EpisodeValue(show, n, episode.name);
    LonePlaceholder(db, handlers, config.postFormats, show, PostEnv(show, n, episode.name), "episode");
  }

  /** The final pass's `episode` value survives `strip()` and reads back as
      the number. */
  lemma EpisodeValue(show: Show, n: int, name: Option<string>)
    ensures Strip(Lookup(PostEnv(show, n, name), "episode")) == IntToString(n)
    ensures Numeral(IntToString(n)) && ParseInt(IntToString(n)) == n
  {
    PostEnvValues(show, n, name);
    IntToStringStripped(n);
    StripStripped(IntToString(n));
    IntToStringRoundTrip(n);
  }

  lemma EpisodeKey()
    ensures IsKey("episode") && BraceFree("episode")
    ensures "episode" != "spoiler" && "episode" != "streams" && "episode" != "links" && "episode" != "discussions"
  {
    assert !('0' <= "episode"[0] <= '9');
    assert "episode"[0] != "spoiler"[0] && "episode"[0] != "streams"[0];
  }

  lemma ContainsItself(s: string)
    ensures Contains(s, s)
  {
    assert s[..|s|] == s;
  }

  /** A pass over a text that is just its own token yields the block. */
  lemma PassOnTokenAlone(key: string, block: string)
    requires IsKey(key)
    ensures FillBlock(Token(key), key, Some(block)) == Some(block)
  {
    ContainsItself(Token(key));
    RenderField(key, map[key := block]);
  }

  /** A show not adapted from a source gets no spoiler warning: a template
      that is just `{spoiler}` composes to the empty text, whatever the
      format table holds. */
  lemma SpoilerOmittedWithoutSource(db: Db, handlers: Handlers, formats: map<string, string>,
                                    show: Show, episode: Episode, stream: Stream)
    requires !show.hasSource
    ensures PostText(db, handlers, Token("spoiler"), formats, show,
                     PostEnv(show, episode.number + stream.displayOffset, episode.name)) == Some("")
  {
    KeysOfPasses();
    PassOnTokenAlone("spoiler", "");
    var env := PostEnv(show, episode.number + stream.displayOffset, episode.name);
    OnlySpoilerPass(db, handlers, Token("spoiler"), formats, show, env, "");
    assert Render("", env) == Some("");
    StripStripped("");
  }

  /** Later passes re-read what earlier passes inserted: a spoiler text
      that is a placeholder of the final pass (such as `{show_name}`) ends
      up showing that placeholder's value. */
  lemma SpoilerRescanned(db: Db, handlers: Handlers, formats: map<string, string>,
                         show: Show, env: map<string, string>, name: string)
    requires IsKey(name) && BraceFree(name)
    requires name != "streams" && name != "links" && name != "discussions"
    requires show.hasSource && "spoiler" in formats && formats["spoiler"] == Token(name)
    ensures PostText(db, handlers, Token("spoiler"), formats, show, env) == Some(Strip(Lookup(env, name)))
  {
    KeysOfPasses();
    PassOnTokenAlone("spoiler", Token(name));
    FieldToken(name, "streams");
    FieldToken(name, "links");
    FieldToken(name, "discussions");
    OnlySpoilerPass(db, handlers, Token("spoiler"), formats, show, env, Token(name));
    RenderToken(name, env);
  }

  /** A show adapted from a source whose format table has no `spoiler`
      entry cannot be posted with a template that asks for the spoiler
      warning: the generator's `KeyError` aborts the composition. */
  lemma SpoilerWithoutFormatRaises(db: Db, handlers: Handlers, text: string, formats: map<string, string>,
                                   show: Show, env: map<string, string>)
    requires show.hasSource && "spoiler" !in formats && Contains(text, Token("spoiler"))
    ensures PostText(db, handlers, text, formats, show, env) == None
  {
    assert SpoilerBlock(formats, show) == None;
  }

  /** The final pass supplies the show's name, the displayed number and
      the episode name's suffix. */
  lemma PostEnvValues(show: Show, number: int, name: Option<string>)
    ensures Lookup(PostEnv(show, number, name), "show_name") == show.name
    ensures Lookup(PostEnv(show, number, name), "episode") == IntToString(number)
    ensures Lookup(PostEnv(show, number, name), "episode_name") == EpisodeNameSuffix(name)
  {
    assert |"show_name"| == 9 && |"episode"| == 7 && |"episode_name"| == 12;
  }

  /** The names the composer's passes supply are mapping keys. */
  lemma KeysOfPasses()
    ensures IsKey("spoiler") && IsKey("streams") && IsKey("links") && IsKey("discussions")
    ensures IsKey("show_name") && IsKey("episode") && IsKey("episode_name")
  {
    assert !('0' <= "spoiler"[0] <= '9') && !('0' <= "streams"[0] <= '9') && !('0' <= "links"[0] <= '9');
    assert !('0' <= "discussions"[0] <= '9') && !('0' <= "show_name"[0] <= '9');
    assert !('0' <= "episode"[0] <= '9') && !('0' <= "episode_name"[0] <= '9');
  }

  lemma RenderToken(name: string, env: map<string, string>)
    requires IsKey(name)
    ensures Render(Token(name), env) == Some(Lookup(env, name))
  {
    RenderField(name, env);
  }
}
