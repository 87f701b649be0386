/**
 * Per-item playback negotiation: the `Video` object of jellyfin_mpv_shim/media.py:10-186.
 *
 * The server is not called: the item record `get_item` would return is given to the
 * constructor, and `get_play_info` is a parameter of `GetPlaybackUrl` (a function from the
 * request to the list of media sources the server answers with). `close_transcode` is
 * recorded in the ghost flag `closeRequested`.
 */
module Playback {
  import opened Wrappers
  import opened Format
  import opened Streams

  /** The client settings the code reads: `auth.server`, `auth.token`, `app.device_id`
      and `settings.remote_kbps`. */
  datatype Config = Config(server: string, token: string, deviceId: string, remoteKbps: int)

  /** The keys of the item record that the title reads. */
  datatype Item = Item(
    kind: Option<string>,          // "Type"
    name: Option<string>,          // "Name"
    seriesName: Option<string>,    // "SeriesName"
    indexNumber: int,              // "IndexNumber", the episode number
    parentIndexNumber: int,        // "ParentIndexNumber", the season number
    productionYear: Option<int>)   // "ProductionYear"

  /** A pinned `(video_bitrate, force_transcode)` pair. */
  datatype Override = Override(bitrate: Option<int>, force: bool)

  /** What `get_transcode_bitrate` answers: the string "none", the string "max", or a number. */
  datatype Bitrate = NoneLabel | MaxLabel | Kbps(kbps: int)

  /** The arguments of `get_play_info`; `remote`, `videoBitrate` and `forceTranscode` are
      those handed to `get_profile`, whose result is opaque here. */
  datatype PlayInfoRequest = PlayInfoRequest(
    itemId: string, remote: bool, videoBitrate: Option<int>, forceTranscode: bool,
    aid: Option<int>, sid: Option<int>)

  /** The end of `get_playback_url`: a URL, Python's `None`, or the `IndexError` raised when
      `src_seq` is past the end of the server's source list. */
  datatype UrlOutcome = Resolved(url: string) | Exhausted | SourceIndexError

  // ------------------------------------------------------------------- title

  /** Python's `"%s" % v` for a value that may be `None`: a missing value and the string
      "None" print alike. */
  function Show(v: Option<string>): (r: string)
    ensures v.Some? ==> r == v.value
    ensures r == "None" <==> v.None? || v == Some("None")
  {
    match v
    case None => "None"
    case Some(s) => s
  }

  /** The display title (media.py:88-97); `None` stands for Python's `None`. */
  function ProperTitle(item: Item): (t: Option<string>)
    ensures item.kind != Some("Episode") && item.kind != Some("Movie") ==> t == item.name
    ensures item.kind == Some("Movie") && item.productionYear.None? ==> t == item.name
  {
    if item.kind == Some("Episode") then
      Some(Show(item.seriesName) + " - s" + IntToString(item.parentIndexNumber)
           + "e" + Pad2(item.indexNumber) + " - " + Show(item.name))
    else if item.kind == Some("Movie") && item.productionYear.Some? then
      Some(Show(item.name) + " (" + IntToString(item.productionYear.value) + ")")
    else
      item.name
  }

  /** An episode title: series, season, two-digit episode, name. */
  lemma EpisodeTitleExample()
    ensures ProperTitle(Item(Some("Episode"), Some("Bar"), Some("Foo"), 3, 1, None)) == Some("Foo - s1e03 - Bar")
  {
    assert IntToString(1) == "1";
    assert Pad2(3) == "03";
    assert "Foo" + " - s" + "1" + "e" + "03" + " - " + "Bar" == "Foo - s1e03 - Bar";
  }

  /** A movie title with and without a production year. */
  lemma MovieTitleExamples()
    ensures ProperTitle(Item(Some("Movie"), Some("Baz"), None, 0, 0, Some(1999))) == Some("Baz (1999)")
    ensures ProperTitle(Item(Some("Movie"), Some("Baz"), None, 0, 0, None)) == Some("Baz")
  {
    assert NatToString(1999) == "1999" by {
      assert NatToString(1) == "1";
      assert NatToString(19) == "19" by { assert NatToString(19) == NatToString(1) + [DigitChar(9)]; }
      assert NatToString(199) == "199" by { assert NatToString(199) == NatToString(19) + [DigitChar(9)]; }
      assert NatToString(1999) == NatToString(199) + [DigitChar(9)];
    }
    assert IntToString(1999) == "1999";
    assert "Baz" + " (" + "1999" + ")" == "Baz (1999)";
  }

  // ----------------------------------------------------------------- bitrate

  /** `get_transcode_bitrate` (media.py:107-118) over the fields it reads. Python's
      implicit `None` (an override with no bitrate and a false force flag) is `None` here. */
  function TranscodeBitrate(isTranscode: bool, ovr: Option<Override>, isLocal: bool, remoteKbps: int)
    : (r: Option<Bitrate>)
    ensures r == Some(NoneLabel) <==> !isTranscode
    ensures r == Some(MaxLabel) <==>
              isTranscode && ((ovr.Some? && ovr.value.bitrate.None? && ovr.value.force) || (ovr.None? && isLocal))
    ensures r.None? <==> isTranscode && ovr.Some? && ovr.value.bitrate.None? && !ovr.value.force
  {
    if !isTranscode then Some(NoneLabel)
    else if ovr.Some? then
      if ovr.value.bitrate.Some? then Some(Kbps(ovr.value.bitrate.value))
      else if ovr.value.force then Some(MaxLabel)
      else None
    else if isLocal then Some(MaxLabel)
    else Some(Kbps(remoteKbps))
  }

  /** The override `set_trs_override(bitrate, force)` leaves behind, then the bitrate
      that follows from it: a bitrate is pinned only together with a forced transcode,
      and a false force flag forgets any earlier bitrate. */
  lemma BitrateAfterOverride(isTranscode: bool, isLocal: bool, remoteKbps: int, bitrate: Option<int>, force: bool)
    ensures var ovr := if force then Some(Override(bitrate, force)) else None;
            TranscodeBitrate(isTranscode, ovr, isLocal, remoteKbps) ==
              if !isTranscode then Some(NoneLabel)
              else if force && bitrate.Some? then Some(Kbps(bitrate.value))
              else if force || isLocal then Some(MaxLabel)
              else Some(Kbps(remoteKbps))
  {
  }

  // --------------------------------------------------------------------- URLs

  /** The direct-stream URL (media.py:127-132). */
  function DirectUrl(server: string, itemId: string, sourceId: string, token: string): (r: string)
    ensures |r| >= |server| + |itemId| + |sourceId| + |token|
    ensures r[..|server|] == server && r[|r| - |token|..] == token
  {
    server + "/Videos/" + itemId + "/stream?static=true&MediaSourceId=" + sourceId + "&api_key=" + token
  }

  /** Two direct URLs built with the same server, item and token differ when the source
      ids differ: the URL names the source unambiguously. */
  lemma {:induction false} DirectUrlNamesSource(server: string, itemId: string, a: string, b: string, token: string)
    requires DirectUrl(server, itemId, a, token) == DirectUrl(server, itemId, b, token)
    ensures a == b
  {
    var head := server + "/Videos/" + itemId + "/stream?static=true&MediaSourceId=";
    var tail := "&api_key=" + token;
    var u := DirectUrl(server, itemId, a, token);
    assert u == head + a + tail;
    assert u == head + b + tail;
    assert |a| == |b|;
    assert a == u[|head|..|head| + |a|];
    assert b == u[|head|..|head| + |b|];
  }

  /** A source can be played when it allows a direct stream or a transcode. */
  predicate Usable(src: MediaSource) {
    src.supportsDirectStream || src.supportsTranscoding
  }

  /** The URL `_get_url_from_source` builds for a source (media.py:125-135): direct stream
      takes precedence over transcoding. */
  function SourceUrl(src: MediaSource, itemId: string, config: Config): (r: Option<string>)
    ensures r.Some? <==> Usable(src)
    ensures src.supportsDirectStream ==> r == Some(DirectUrl(config.server, itemId, src.id, config.token))
    ensures !src.supportsDirectStream && src.supportsTranscoding ==> r == Some(config.server + src.transcodingUrl)
  {
    if src.supportsDirectStream then Some(DirectUrl(config.server, itemId, src.id, config.token))
    else if src.supportsTranscoding then Some(config.server + src.transcodingUrl)
    else None
  }

  /** `is_transcode` after `_get_url_from_source`: false for a direct stream, true for a
      transcode, unchanged when the source is unusable. */
  function TranscodeAfter(src: MediaSource, was: bool): (b: bool)
    ensures Usable(src) ==> (b <==> !src.supportsDirectStream)
    ensures !Usable(src) ==> b == was
  {
    if src.supportsDirectStream then false else if src.supportsTranscoding then true else was
  }

  /** What `get_playback_url` answers for a source list, as written: only the source at
      `srcSeq` is ever tried (the fallback loop re-reads that index, media.py:157). */
  function WrittenOutcome(sources: seq<MediaSource>, srcSeq: nat, itemId: string, config: Config): (r: UrlOutcome)
    ensures r == SourceIndexError <==> srcSeq >= |sources|
    ensures r == Exhausted <==> srcSeq < |sources| && !Usable(sources[srcSeq])
    ensures r.Resolved? ==> srcSeq < |sources| && SourceUrl(sources[srcSeq], itemId, config) == Some(r.url)
  {
    if srcSeq >= |sources| then SourceIndexError
    else match SourceUrl(sources[srcSeq], itemId, config)
      case Some(u) => Resolved(u)
      case None => Exhausted
  }

  /** The first usable source at or after `from`, skipping index `skip`. */
  function FirstUsableOther(sources: seq<MediaSource>, skip: nat, from: nat): (r: Option<nat>)
    requires from <= |sources|
    ensures r.Some? ==> from <= r.value < |sources| && r.value != skip && Usable(sources[r.value])
    ensures r.Some? ==> forall j :: from <= j < r.value && j != skip ==> !Usable(sources[j])
    ensures r.None? ==> forall j :: from <= j < |sources| && j != skip ==> !Usable(sources[j])
    decreases |sources| - from
  {
    if from == |sources| then None
    else if from != skip && Usable(sources[from]) then Some(from)
    else FirstUsableOther(sources, skip, from + 1)
  }

  /** What `get_playback_url` evidently means to answer ("try all of them"): the source at
      `srcSeq` when it is usable, otherwise the first other usable source in list order. */
  function IntendedOutcome(sources: seq<MediaSource>, srcSeq: nat, itemId: string, config: Config): (r: UrlOutcome)
    ensures r == SourceIndexError <==> srcSeq >= |sources|
    ensures r == Exhausted <==> srcSeq < |sources| && forall j :: 0 <= j < |sources| ==> !Usable(sources[j])
    ensures r.Resolved? ==> exists j :: 0 <= j < |sources| && SourceUrl(sources[j], itemId, config) == Some(r.url)
  {
    if srcSeq >= |sources| then SourceIndexError
    else if Usable(sources[srcSeq]) then Resolved(SourceUrl(sources[srcSeq], itemId, config).value)
    else match FirstUsableOther(sources, srcSeq, 0)
      case Some(j) => Resolved(SourceUrl(sources[j], itemId, config).value)
      case None => Exhausted
  }

  /** Two sources, the first unusable and the second direct-stream capable, asked for with
      `src_seq` 0: the code as written gives up, the intended negotiation plays source 1. */
  lemma FallbackNeverMoves(itemId: string, config: Config)
    ensures var dead := MediaSource("a", "File", [], false, false, "", None, None);
            var live := MediaSource("b", "File", [], true, false, "", None, None);
            WrittenOutcome([dead, live], 0, itemId, config) == Exhausted &&
            IntendedOutcome([dead, live], 0, itemId, config) == Resolved(DirectUrl(config.server, itemId, "b", config.token))
  {
  }

  // ------------------------------------------------------------------- Video

  class Video {
    const itemId: string
    const item: Item
    const config: Config
    /** `parent.is_local`: whether the server is on the local network. */
    const isLocal: bool
    const isTv: bool
    const srcSeq: nat

    var aid: Option<int>
    var sid: Option<int>
    var subtitleSeq: map<int, int>
    var subtitleUid: map<int, int>
    var subtitleUrl: map<int, string>
    var subtitleEnc: set<int>
    var audioSeq: map<int, int>
    var audioUid: map<int, int>
    var isTranscode: bool
    var trsOvr: Option<Override>
    var playbackInfo: Option<seq<MediaSource>>
    var mediaSource: Option<MediaSource>
    /** `_title`: absent until first asked for, then the cached title (which may be `None`). */
    var title: Option<Option<string>>
    /** Whether the last `terminate_transcode` asked the server to close a transcode. */
    ghost var closeRequested: bool

    /** The six maps and sets as one value. */
    function CurrentLayout(): Layout
      reads this
    {
      Layout(audioSeq, audioUid, subtitleSeq, subtitleUid, subtitleUrl, subtitleEnc)
    }

    /** The object invariant: the track maps always describe the current media source (never
        a previous one), a stored override always forces a transcode, and a cached title is
        the item's title. */
    ghost predicate Valid()
      reads this
    {
      && CurrentLayout() == LayoutOf(mediaSource, config.server)
      && (trsOvr.Some? ==> trsOvr.value.force)
      && (title.Some? ==> title.value == ProperTitle(item))
      && isTv == (item.kind == Some("Episode"))
    }

    /** `Video.__init__` (media.py:11-31), with the item record `get_item` returned. */
    constructor (itemId: string, item: Item, config: Config, isLocal: bool,
                 aid: Option<int>, sid: Option<int>, srcSeq: nat)
      ensures Valid()
      ensures this.itemId == itemId && this.item == item && this.config == config
      ensures this.isLocal == isLocal && this.srcSeq == srcSeq
      ensures this.aid == aid && this.sid == sid
      ensures CurrentLayout() == EmptyLayout && !isTranscode && trsOvr.None?
      ensures playbackInfo.None? && mediaSource.None? && title.None?
    {
      this.itemId := itemId;
      this.item := item;
      this.config := config;
      this.isLocal := isLocal;
      this.aid := aid;
      this.sid := sid;
      this.isTv := item.kind == Some("Episode");
      subtitleSeq, subtitleUid, subtitleUrl, subtitleEnc := map[], map[], map[], {};
      audioSeq, audioUid := map[], map[];
      isTranscode := false;
      trsOvr := None;
      playbackInfo := None;
      mediaSource := None;
      this.srcSeq := srcSeq;
      title := None;
      closeRequested := false;
    }

    /** The audio loop of `map_streams` (media.py:44-53) over a source's streams. */
    method MapAudio(streams: seq<MediaStream>)
      modifies this`audioSeq, this`audioUid
      ensures audioUid == AudioScan(streams).uid && audioSeq == AudioScan(streams).seqOf
    {
      audioUid, audioSeq := map[], map[];
      var index := 1;
      for i := 0 to |streams|
        invariant AudioPass(index, audioUid, audioSeq) == AudioScan(streams[..i])
      {
        assert streams[..i + 1][..i] == streams[..i];
        var stream := streams[i];
        if stream.kind != Some("Audio") {
          continue;
        }
        audioUid := audioUid[index := stream.index];
        audioSeq := audioSeq[stream.index := index];
        if stream.isExternal == Some(false) {
          index := index + 1;
        }
      }
      assert streams[..|streams|] == streams;
    }

    /** The subtitle loop of `map_streams` (media.py:55-72) over a source's streams. */
    method MapSubtitles(streams: seq<MediaStream>)
      modifies this`subtitleSeq, this`subtitleUid, this`subtitleUrl, this`subtitleEnc
      ensures var r := SubtitleScan(streams, config.server);
              subtitleUid == r.uid && subtitleSeq == r.seqOf && subtitleUrl == r.url && subtitleEnc == r.enc
    {
      subtitleSeq, subtitleUid, subtitleUrl, subtitleEnc := map[], map[], map[], {};
      var index := 1;
      for i := 0 to |streams|
        invariant SubtitlePass(index, subtitleUid, subtitleSeq, subtitleUrl, subtitleEnc)
                  == SubtitleScan(streams[..i], config.server)
      {
        assert streams[..i + 1][..i] == streams[..i];
        var sub := streams[i];
        if sub.kind != Some("Subtitle") {
          continue;
        }
        if sub.deliveryMethod == Some("Embed") {
          subtitleUid := subtitleUid[index := sub.index];
          subtitleSeq := subtitleSeq[sub.index := index];
        } else if sub.deliveryMethod == Some("External") {
          var url := sub.deliveryUrl;
          if sub.isExternalUrl != Some(true) {
            url := config.server + url;
          }
          subtitleUrl := subtitleUrl[sub.index := url];
        } else if sub.deliveryMethod == Some("Encode") {
          subtitleEnc := subtitleEnc + {sub.index};
        }
        if sub.isExternal == Some(false) {
          index := index + 1;
        }
      }
      assert streams[..|streams|] == streams;
    }

    /** `map_streams` (media.py:33-81): recompute the six maps for the current source, then
        adopt the source's defaults into a still-unset `aid`/`sid`. */
    method MapStreams()
      modifies this`subtitleSeq, this`subtitleUid, this`subtitleUrl, this`subtitleEnc,
               this`audioSeq, this`audioUid, this`aid, this`sid
      ensures CurrentLayout() == LayoutOf(mediaSource, config.server)
      ensures aid == if IsFileSource(mediaSource) then Adopt(old(aid), mediaSource.value.defaultAudioStreamIndex) else old(aid)
      ensures sid == if IsFileSource(mediaSource) then Adopt(old(sid), mediaSource.value.defaultSubtitleStreamIndex) else old(sid)
    {
      subtitleSeq := map[];
      subtitleUid := map[];
      subtitleUrl := map[];
      subtitleEnc := {};
      audioSeq := map[];
      audioUid := map[];

      if mediaSource.None? || mediaSource.value.protocol != "File" {
        return;
      }
      var streams := mediaSource.value.streams;
      MapAudio(streams);
      MapSubtitles(streams);

      var userAid := mediaSource.value.defaultAudioStreamIndex;
      var userSid := mediaSource.value.defaultSubtitleStreamIndex;
      if userAid.Some? && aid.None? {
        aid := userAid;
      }
      if userSid.Some? && sid.None? {
        sid := userSid;
      }
    }

    /** `get_current_streams` (media.py:83-84): the selected audio and subtitle uids. */
    function CurrentStreams(): (r: (Option<int>, Option<int>))
      reads this
      ensures r.0 == aid && r.1 == sid
    {
      (aid, sid)
    }

    /** `get_proper_title` (media.py:86-99): computed on first use, then served from the cache. */
    method GetProperTitle() returns (t: Option<string>)
      requires Valid()
      modifies this`title
      ensures Valid()
      ensures t == ProperTitle(item) && title == Some(t)
      ensures old(title).Some? ==> t == old(title).value
    {
      if title.None? {
        var computed := item.name;
        if isTv {
          computed := Some(Show(item.seriesName) + " - s" + IntToString(item.parentIndexNumber)
                           + "e" + Pad2(item.indexNumber) + " - " + Show(computed));
        } else if item.kind == Some("Movie") {
          var year := item.productionYear;
          if year.Some? {
            computed := Some(Show(computed) + " (" + IntToString(year.value) + ")");
          }
        }
        title := Some(computed);
      }
      t := title.value;
    }

    /** `set_trs_override` (media.py:101-105): pin the pair only when forcing a transcode. */
    method SetTrsOverride(videoBitrate: Option<int>, forceTranscode: bool)
      requires Valid()
      modifies this`trsOvr
      ensures Valid()
      ensures trsOvr == if forceTranscode then Some(Override(videoBitrate, forceTranscode)) else None
    {
      if forceTranscode {
        trsOvr := Some(Override(videoBitrate, forceTranscode));
      } else {
        trsOvr := None;
      }
    }

    /** `get_transcode_bitrate` (media.py:107-118); on a valid `Video` it always has an answer. */
    function GetTranscodeBitrate(): (r: Option<Bitrate>)
      reads this
      ensures Valid() ==> r.Some?
      ensures r == Some(NoneLabel) <==> !isTranscode
    {
      TranscodeBitrate(isTranscode, trsOvr, isLocal, config.remoteKbps)
    }

    /** `terminate_transcode` (media.py:120-122): the server is asked to close the
        transcode exactly when one is running. */
    method TerminateTranscode()
      modifies this`closeRequested
      ensures closeRequested == isTranscode
    {
      closeRequested := isTranscode;
    }

    /** `_get_url_from_source` (media.py:124-135). Its argument is ignored: the URL is built
        from the current `media_source`. */
    method UrlFromSource(source: MediaSource) returns (url: Option<string>)
      requires mediaSource.Some?
      modifies this`isTranscode
      ensures url == SourceUrl(mediaSource.value, itemId, config)
      ensures isTranscode == TranscodeAfter(mediaSource.value, old(isTranscode))
    {
      var ms := mediaSource.value;
      if ms.supportsDirectStream {
        isTranscode := false;
        url := Some(config.server + "/Videos/" + itemId + "/stream?static=true&MediaSourceId="
                    + ms.id + "&api_key=" + config.token);
      } else if ms.supportsTranscoding {
        isTranscode := true;
        url := Some(config.server + ms.transcodingUrl);
      } else {
        url := None;
      }
    }

    /** One attempt of `get_playback_url` (media.py:149-151, :157-158): select a source, map
        its streams and build its URL. */
    method SelectSource(src: MediaSource) returns (url: Option<string>)
      modifies this`mediaSource, this`isTranscode,
               this`subtitleSeq, this`subtitleUid, this`subtitleUrl, this`subtitleEnc,
               this`audioSeq, this`audioUid, this`aid, this`sid
      ensures mediaSource == Some(src)
      ensures CurrentLayout() == LayoutOf(mediaSource, config.server)
      ensures url == SourceUrl(src, itemId, config)
      ensures isTranscode == TranscodeAfter(src, old(isTranscode))
      ensures aid == if IsFileSource(mediaSource) then Adopt(old(aid), src.defaultAudioStreamIndex) else old(aid)
      ensures sid == if IsFileSource(mediaSource) then Adopt(old(sid), src.defaultSubtitleStreamIndex) else old(sid)
    {
      mediaSource := Some(src);
      MapStreams();
      url := UrlFromSource(src);
    }

    /** The second half of `get_playback_url` (media.py:149-163): select the source at
        `src_seq`, map its streams, build its URL, and run the fallback loop. The loop
        re-reads index `src_seq` on every turn, so it only repeats the first attempt. */
    method NegotiateSource(sources: seq<MediaSource>) returns (url: Option<string>)
      requires srcSeq < |sources|
      modifies this`mediaSource, this`isTranscode,
               this`subtitleSeq, this`subtitleUid, this`subtitleUrl, this`subtitleEnc,
               this`audioSeq, this`audioUid, this`aid, this`sid
      ensures mediaSource == Some(sources[srcSeq])
      ensures CurrentLayout() == LayoutOf(mediaSource, config.server)
      ensures url == SourceUrl(sources[srcSeq], itemId, config)
      ensures isTranscode == TranscodeAfter(sources[srcSeq], old(isTranscode))
      ensures aid == if IsFileSource(mediaSource) then Adopt(old(aid), sources[srcSeq].defaultAudioStreamIndex) else old(aid)
      ensures sid == if IsFileSource(mediaSource) then Adopt(old(sid), sources[srcSeq].defaultSubtitleStreamIndex) else old(sid)
    {
      url := SelectSource(sources[srcSeq]);

      if url.None? && |sources| > 1 {
        ghost var firstAid, firstSid, firstTranscode := aid, sid, isTranscode;
        for i := 0 to |sources|
          invariant url.None?
          invariant mediaSource == Some(sources[srcSeq])
          invariant CurrentLayout() == LayoutOf(mediaSource, config.server)
          invariant aid == firstAid && sid == firstSid && isTranscode == firstTranscode
        {
          if i != srcSeq {
            url := SelectSource(sources[srcSeq]);
            if url.Some? {
              break;
            }
          }
        }
      }
    }

    /** `NegotiateSource` with the fallback loop reading index `i`, as its comment
        ("try all of them") and its unused loop variable intend: the source at `src_seq`
        when usable, otherwise the first other usable source in list order. The track maps
        always describe the source finally selected, and a selection already made is kept. */
    method NegotiateSourceTryingAll(sources: seq<MediaSource>) returns (url: Option<string>)
      requires srcSeq < |sources|
      modifies this`mediaSource, this`isTranscode,
               this`subtitleSeq, this`subtitleUid, this`subtitleUrl, this`subtitleEnc,
               this`audioSeq, this`audioUid, this`aid, this`sid
      ensures (if url.Some? then Resolved(url.value) else Exhausted) == IntendedOutcome(sources, srcSeq, itemId, config)
      ensures mediaSource.Some? && mediaSource.value in sources
      ensures url.Some? ==> url == SourceUrl(mediaSource.value, itemId, config) &&
                            isTranscode == !mediaSource.value.supportsDirectStream
      ensures url.None? ==> isTranscode == old(isTranscode)
      ensures CurrentLayout() == LayoutOf(mediaSource, config.server)
      ensures old(aid).Some? ==> aid == old(aid)
      ensures old(sid).Some? ==> sid == old(sid)
    {
      url := SelectSource(sources[srcSeq]);

      if url.None? && |sources| > 1 {
        for i := 0 to |sources|
          invariant url.None? && isTranscode == old(isTranscode)
          invariant forall j :: 0 <= j < i && j != srcSeq ==> !Usable(sources[j])
          invariant mediaSource.Some? && mediaSource.value in sources
          invariant CurrentLayout() == LayoutOf(mediaSource, config.server)
          invariant old(aid).Some? ==> aid == old(aid)
          invariant old(sid).Some? ==> sid == old(sid)
        {
          if i != srcSeq {
            url := SelectSource(sources[i]);
            if url.Some? {
              ghost var first := FirstUsableOther(sources, srcSeq, 0);
              assert first == Some(i);
              break;
            }
          }
        }
      }
    }

    /** `get_playback_url` (media.py:137-163). `playInfo` is the server's answer to
        `get_play_info`; the unused `offset` and `force_bitrate` arguments are dropped. A
        stored override replaces the bitrate and force arguments. */
    method GetPlaybackUrl(playInfo: PlayInfoRequest -> seq<MediaSource>, videoBitrate: Option<int>, forceTranscode: bool)
      returns (r: UrlOutcome)
      requires Valid()
      modifies this`playbackInfo, this`mediaSource, this`isTranscode, this`closeRequested,
               this`subtitleSeq, this`subtitleUid, this`subtitleUrl, this`subtitleEnc,
               this`audioSeq, this`audioUid, this`aid, this`sid
      ensures Valid()
      ensures closeRequested == old(isTranscode)
      ensures playbackInfo == Some(playInfo(PlayInfoRequest(
                itemId, !isLocal,
                if old(trsOvr).Some? then old(trsOvr).value.bitrate else videoBitrate,
                if old(trsOvr).Some? then old(trsOvr).value.force else forceTranscode,
                old(aid), old(sid))))
      ensures r == WrittenOutcome(playbackInfo.value, srcSeq, itemId, config)
      ensures srcSeq >= |playbackInfo.value| ==>
                mediaSource == old(mediaSource) && aid == old(aid) && sid == old(sid) &&
                isTranscode == old(isTranscode)
      ensures srcSeq < |playbackInfo.value| ==>
                var ms := playbackInfo.value[srcSeq];
                && mediaSource == Some(ms)
                && aid == (if IsFileSource(mediaSource) then Adopt(old(aid), ms.defaultAudioStreamIndex) else old(aid))
                && sid == (if IsFileSource(mediaSource) then Adopt(old(sid), ms.defaultSubtitleStreamIndex) else old(sid))
                && isTranscode == TranscodeAfter(ms, old(isTranscode))
    {
      TerminateTranscode();

      var bitrate, force := videoBitrate, forceTranscode;
      if trsOvr.Some? {
        bitrate, force := trsOvr.value.bitrate, trsOvr.value.force;
      }
      var sources := playInfo(PlayInfoRequest(itemId, !isLocal, bitrate, force, aid, sid));
      playbackInfo := Some(sources);

      if srcSeq >= |sources| {
        return SourceIndexError;
      }
      var url := NegotiateSource(sources);
      r := if url.Some? then Resolved(url.value) else Exhausted;
    }

    /** `set_streams` (media.py:173-186): change the selected tracks and report whether
        playback has to restart. */
    method SetStreams(newAid: Option<int>, newSid: Option<int>) returns (needRestart: bool)
      requires Valid()
      modifies this`aid, this`sid
      ensures Valid()
      ensures aid == if newAid.Some? then newAid else old(aid)
      ensures sid == if newSid.Some? then newSid else old(sid)
      ensures needRestart <==>
                (newAid.Some? && newAid != old(aid) && isTranscode) ||
                (newSid.Some? && newSid != old(sid) && newSid.value in subtitleEnc)
    {
      needRestart := false;
      if newAid.Some? && aid != newAid {
        aid := newAid;
        if isTranscode {
          needRestart := true;
        }
      }
      if newSid.Some? && sid != newSid {
        sid := newSid;
        if newSid.value in subtitleEnc {
          needRestart := true;
        }
      }
    }
  }
}
