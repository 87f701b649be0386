/**
 * The records the server sends back for one playback request (a media source and its
 * streams) and the track numbering `Video.map_streams` derives from them
 * (jellyfin_mpv_shim/media.py:33-81).
 *
 * `map_streams` walks the stream list twice with a running 1-based counter. Each walk is
 * specified here as a left fold over the list (`AudioScan`, `SubtitleScan`): the value of
 * the fold on a prefix is the state of the loop after that prefix. The lemmas then say
 * what the fold computes, against independent descriptions of the list (counts,
 * filtered index lists, "the last stream that wrote this key").
 */
module Streams {
  import opened Wrappers

  /** One entry of a source's `MediaStreams`. Keys the code reads with `.get` are optional. */
  datatype MediaStream = MediaStream(
    kind: Option<string>,            // "Type"
    index: int,                      // "Index", the server's uid of the stream
    isExternal: Option<bool>,        // "IsExternal"
    deliveryMethod: Option<string>,  // "DeliveryMethod"
    deliveryUrl: string,             // "DeliveryUrl"
    isExternalUrl: Option<bool>)     // "IsExternalUrl"

  /** One entry of the playback info's `MediaSources`. */
  datatype MediaSource = MediaSource(
    id: string,                                // "Id"
    protocol: string,                          // "Protocol"
    streams: seq<MediaStream>,                 // "MediaStreams"
    supportsDirectStream: bool,                // "SupportsDirectStream"
    supportsTranscoding: bool,                 // "SupportsTranscoding"
    transcodingUrl: string,                    // "TranscodingUrl"
    defaultAudioStreamIndex: Option<int>,      // "DefaultAudioStreamIndex"
    defaultSubtitleStreamIndex: Option<int>)   // "DefaultSubtitleStreamIndex"

  predicate IsAudio(s: MediaStream) { s.kind == Some("Audio") }

  predicate IsSubtitle(s: MediaStream) { s.kind == Some("Subtitle") }

  /** `stream.get("IsExternal") == False`: only an explicit false advances the counter. */
  predicate TakesSlot(s: MediaStream) { s.isExternal == Some(false) }

  predicate IsEmbedded(s: MediaStream) { IsSubtitle(s) && s.deliveryMethod == Some("Embed") }

  predicate IsExternalDelivery(s: MediaStream) { IsSubtitle(s) && s.deliveryMethod == Some("External") }

  predicate IsEncoded(s: MediaStream) { IsSubtitle(s) && s.deliveryMethod == Some("Encode") }

  /** Where an external subtitle is fetched from: verbatim when `IsExternalUrl` is truthy,
      otherwise relative to the server's base address. */
  function ExternalSubtitleUrl(s: MediaStream, server: string): (url: string)
    ensures s.isExternalUrl == Some(true) ==> url == s.deliveryUrl
    ensures s.isExternalUrl != Some(true) ==>
              |url| == |server| + |s.deliveryUrl| && url[..|server|] == server && url[|server|..] == s.deliveryUrl
  {
    if s.isExternalUrl == Some(true) then s.deliveryUrl else server + s.deliveryUrl
  }

  predicate Distinct(a: seq<int>) {
    forall i, j :: 0 <= i < j < |a| ==> a[i] != a[j]
  }

  /** Number of streams of the given type that take a player slot. */
  function SlotCount(ss: seq<MediaStream>, kind: string): nat
  {
    if ss == [] then 0
    else SlotCount(ss[..|ss| - 1], kind)
         + (if ss[|ss| - 1].kind == Some(kind) && TakesSlot(ss[|ss| - 1]) then 1 else 0)
  }

  /** `SlotCount` grows with the prefix. */
  lemma {:induction false} SlotCountMonotone(ss: seq<MediaStream>, kind: string, i: nat, j: nat)
    requires i <= j <= |ss|
    ensures SlotCount(ss[..i], kind) <= SlotCount(ss[..j], kind)
  {
    if i < j {
      SlotCountMonotone(ss, kind, i, j - 1);
      assert ss[..j][..j - 1] == ss[..j - 1];
    }
  }

  // ---------------------------------------------------------------- audio walk

  /** State of the audio loop: the counter, `audio_uid` (slot to uid), `audio_seq` (uid to slot). */
  datatype AudioPass = AudioPass(next: int, uid: map<int, int>, seqOf: map<int, int>)

  /** One iteration of the audio loop (media.py:45-53). */
  function AudioStep(p: AudioPass, s: MediaStream): AudioPass
  {
    if !IsAudio(s) then p
    else AudioPass(if TakesSlot(s) then p.next + 1 else p.next,
                   p.uid[p.next := s.index],
                   p.seqOf[s.index := p.next])
  }

  /** One turn of the audio loop records an audio stream at the current counter and under
      its uid, changes no other slot, and moves the counter on only for an internal stream. */
  lemma AudioStepRecords(p: AudioPass, s: MediaStream)
    ensures var r := AudioStep(p, s);
            && (!IsAudio(s) ==> r == p)
            && (IsAudio(s) ==> p.next in r.uid && r.uid[p.next] == s.index)
            && (IsAudio(s) ==> s.index in r.seqOf && r.seqOf[s.index] == p.next)
            && r.uid - {p.next} == p.uid - {p.next}
            && r.uid.Keys <= p.uid.Keys + {p.next} && r.seqOf.Keys <= p.seqOf.Keys + {s.index}
            && r.next == p.next + (if IsAudio(s) && TakesSlot(s) then 1 else 0)
  {
  }

  /** The audio loop run over a whole list, starting from counter 1 and empty maps. */
  function AudioScan(ss: seq<MediaStream>): (r: AudioPass)
    ensures 1 <= r.next <= 1 + |ss|
  {
    if ss == [] then AudioPass(1, map[], map[])
    else AudioStep(AudioScan(ss[..|ss| - 1]), ss[|ss| - 1])
  }

  /** Every audio slot written lies between 1 and the final counter, and `audio_seq` only
      ever maps a uid to such a slot. */
  lemma {:induction false} AudioSlotsInRange(ss: seq<MediaStream>)
    ensures forall j :: j in AudioScan(ss).uid ==> 1 <= j <= AudioScan(ss).next
    ensures forall i :: i in AudioScan(ss).seqOf ==> 1 <= AudioScan(ss).seqOf[i] <= AudioScan(ss).next
  {
    if ss != [] {
      AudioSlotsInRange(ss[..|ss| - 1]);
    }
  }

  /** The uids of the audio streams, in list order. */
  function AudioIndices(ss: seq<MediaStream>): (a: seq<int>)
    ensures |a| <= |ss|
  {
    if ss == [] then []
    else AudioIndices(ss[..|ss| - 1]) + (if IsAudio(ss[|ss| - 1]) then [ss[|ss| - 1].index] else [])
  }

  /** The audio streams of a list, in order. */
  function AudioStreams(ss: seq<MediaStream>): (a: seq<MediaStream>)
    ensures forall k :: 0 <= k < |a| ==> IsAudio(a[k])
  {
    if ss == [] then []
    else AudioStreams(ss[..|ss| - 1]) + (if IsAudio(ss[|ss| - 1]) then [ss[|ss| - 1]] else [])
  }

  /** The audio counter ends one past the number of audio streams whose `IsExternal` is false. */
  lemma {:induction false} AudioCounter(ss: seq<MediaStream>)
    ensures AudioScan(ss).next == 1 + SlotCount(ss, "Audio")
  {
    if ss != [] {
      AudioCounter(ss[..|ss| - 1]);
    }
  }

  /** Streams of any other type leave the audio maps untouched. */
  lemma {:induction false} AudioIgnoresOtherTypes(ss: seq<MediaStream>)
    ensures AudioScan(AudioStreams(ss)) == AudioScan(ss)
  {
    if ss != [] {
      var xs, x := ss[..|ss| - 1], ss[|ss| - 1];
      AudioIgnoresOtherTypes(xs);
      if IsAudio(x) {
        var ys := AudioStreams(xs) + [x];
        assert AudioStreams(ss) == ys;
        assert ys[..|ys| - 1] == AudioStreams(xs);
        assert AudioScan(ys) == AudioStep(AudioScan(AudioStreams(xs)), x);
        assert AudioScan(ss) == AudioStep(AudioScan(xs), x);
      } else {
        assert AudioStreams(ss) == AudioStreams(xs);
      }
    }
  }

  /** When every audio stream is internal, `audio_uid` numbers them 1..N in list order and
      `audio_seq` holds exactly their uids, mapping each back to its number when the uids
      are distinct. */
  lemma {:induction false} AudioNumbering(ss: seq<MediaStream>)
    requires forall k :: 0 <= k < |ss| && IsAudio(ss[k]) ==> TakesSlot(ss[k])
    ensures AudioScan(ss).next == |AudioIndices(ss)| + 1
    ensures forall j :: j in AudioScan(ss).uid <==> 1 <= j <= |AudioIndices(ss)|
    ensures forall j :: 0 <= j < |AudioIndices(ss)| ==> AudioScan(ss).uid[j + 1] == AudioIndices(ss)[j]
    ensures forall i :: i in AudioScan(ss).seqOf <==> i in AudioIndices(ss)
    ensures Distinct(AudioIndices(ss)) ==>
              forall j :: 0 <= j < |AudioIndices(ss)| ==> AudioScan(ss).seqOf[AudioIndices(ss)[j]] == j + 1
  {
    if ss != [] {
      var xs, x := ss[..|ss| - 1], ss[|ss| - 1];
      assert forall k :: 0 <= k < |xs| ==> xs[k] == ss[k];
      AudioNumbering(xs);
      var a, p := AudioIndices(xs), AudioScan(xs);
      if IsAudio(x) {
        assert AudioIndices(ss) == a + [x.index];
        if Distinct(a + [x.index]) {
          assert Distinct(a) by {
            forall i, j | 0 <= i < j < |a| ensures a[i] != a[j] {
              assert a[i] == (a + [x.index])[i] && a[j] == (a + [x.index])[j];
            }
          }
          forall j | 0 <= j < |a| ensures a[j] != x.index {
            assert (a + [x.index])[j] == a[j] && (a + [x.index])[|a|] == x.index;
          }
          var a', q := a + [x.index], AudioScan(ss);
          forall j | 0 <= j < |a'| ensures q.seqOf[a'[j]] == j + 1 {
            if j < |a| {
              assert a'[j] == a[j] && a[j] != x.index;
            }
          }
        }
      } else {
        assert AudioIndices(ss) == a && AudioScan(ss) == p;
      }
    }
  }

  /** Streams of other types between positions `i` and `j` leave the audio pass as it was. */
  lemma {:induction false} AudioSkipsGap(ss: seq<MediaStream>, i: nat, j: nat)
    requires i <= j <= |ss|
    requires forall m :: i <= m < j ==> !IsAudio(ss[m])
    ensures AudioScan(ss[..j]) == AudioScan(ss[..i])
  {
    if i < j {
      AudioSkipsGap(ss, i, j - 1);
      assert ss[..j][..j - 1] == ss[..j - 1];
    }
  }

  /** An external audio stream `ss[k]` is still mapped, at the current counter, and the
      counter does not advance past it: the next audio stream `ss[k']` overwrites that slot. */
  lemma ExternalAudioSlotReused(ss: seq<MediaStream>, k: nat, k': nat)
    requires k < k' < |ss|
    requires IsAudio(ss[k]) && !TakesSlot(ss[k]) && IsAudio(ss[k'])
    requires forall m :: k < m < k' ==> !IsAudio(ss[m])
    ensures var slot := 1 + SlotCount(ss[..k], "Audio");
            && AudioScan(ss[..k + 1]).next == slot
            && slot in AudioScan(ss[..k + 1]).uid && AudioScan(ss[..k + 1]).uid[slot] == ss[k].index
            && slot in AudioScan(ss[..k' + 1]).uid && AudioScan(ss[..k' + 1]).uid[slot] == ss[k'].index
  {
    AudioCounter(ss[..k]);
    assert ss[..k + 1][..k] == ss[..k];
    AudioSkipsGap(ss, k + 1, k');
    assert ss[..k' + 1][..k'] == ss[..k'];
  }

  // ------------------------------------------------------------- subtitle walk

  /** State of the subtitle loop: the counter, `subtitle_uid`, `subtitle_seq`,
      `subtitle_url` and `subtitle_enc`. */
  datatype SubtitlePass = SubtitlePass(
    next: int, uid: map<int, int>, seqOf: map<int, int>, url: map<int, string>, enc: set<int>)

  /** One iteration of the subtitle loop (media.py:56-72). */
  function SubtitleStep(p: SubtitlePass, s: MediaStream, server: string): SubtitlePass
  {
    SubtitlePass(
      if IsSubtitle(s) && TakesSlot(s) then p.next + 1 else p.next,
      if IsEmbedded(s) then p.uid[p.next := s.index] else p.uid,
      if IsEmbedded(s) then p.seqOf[s.index := p.next] else p.seqOf,
      if IsExternalDelivery(s) then p.url[s.index := ExternalSubtitleUrl(s, server)] else p.url,
      if IsEncoded(s) then p.enc + {s.index} else p.enc)
  }

  /** One turn of the subtitle loop: an "Embed" stream is recorded at the current counter and
      under its uid, an "External" one gets its URL, an "Encode" one joins the burn-in set,
      every other map is left alone, and the counter moves on only for an internal stream. */
  lemma SubtitleStepRecords(p: SubtitlePass, s: MediaStream, server: string)
    ensures var r := SubtitleStep(p, s, server);
            && (IsEmbedded(s) ==> p.next in r.uid && r.uid[p.next] == s.index)
            && (IsEmbedded(s) ==> s.index in r.seqOf && r.seqOf[s.index] == p.next)
            && (!IsEmbedded(s) ==> r.uid == p.uid && r.seqOf == p.seqOf)
            && (IsExternalDelivery(s) ==> s.index in r.url && r.url[s.index] == ExternalSubtitleUrl(s, server))
            && (!IsExternalDelivery(s) ==> r.url == p.url)
            && (IsEncoded(s) ==> r.enc == p.enc + {s.index})
            && (!IsEncoded(s) ==> r.enc == p.enc)
            && r.next == p.next + (if IsSubtitle(s) && TakesSlot(s) then 1 else 0)
  {
  }

  /** The subtitle loop run over a whole list, starting from counter 1 and empty maps. */
  function SubtitleScan(ss: seq<MediaStream>, server: string): (r: SubtitlePass)
    ensures 1 <= r.next <= 1 + |ss|
  {
    if ss == [] then SubtitlePass(1, map[], map[], map[], {})
    else SubtitleStep(SubtitleScan(ss[..|ss| - 1], server), ss[|ss| - 1], server)
  }

  /** Every subtitle slot written lies between 1 and the final counter, and `subtitle_seq`
      only ever maps a uid to such a slot. */
  lemma {:induction false} SubtitleSlotsInRange(ss: seq<MediaStream>, server: string)
    ensures forall j :: j in SubtitleScan(ss, server).uid ==> 1 <= j <= SubtitleScan(ss, server).next
    ensures forall i :: i in SubtitleScan(ss, server).seqOf ==>
                        1 <= SubtitleScan(ss, server).seqOf[i] <= SubtitleScan(ss, server).next
  {
    if ss != [] {
      SubtitleSlotsInRange(ss[..|ss| - 1], server);
    }
  }

  /** The counter's value when the subtitle loop reaches stream `k`. */
  function SubtitleSlot(ss: seq<MediaStream>, k: nat): int
    requires k <= |ss|
  {
    1 + SlotCount(ss[..k], "Subtitle")
  }

  /** The subtitle counter ends one past the number of subtitle streams whose `IsExternal` is false. */
  lemma {:induction false} SubtitleCounter(ss: seq<MediaStream>, server: string)
    ensures SubtitleScan(ss, server).next == 1 + SlotCount(ss, "Subtitle")
  {
    if ss != [] {
      SubtitleCounter(ss[..|ss| - 1], server);
    }
  }

  /** `subtitle_enc` is exactly the set of uids of the burn-in ("Encode") subtitles. */
  lemma {:induction false} SubtitleEncoded(ss: seq<MediaStream>, server: string)
    ensures forall i :: i in SubtitleScan(ss, server).enc <==>
                        exists k :: 0 <= k < |ss| && IsEncoded(ss[k]) && ss[k].index == i
  {
    if ss != [] {
      var xs, x := ss[..|ss| - 1], ss[|ss| - 1];
      SubtitleEncoded(xs, server);
      assert forall k :: 0 <= k < |xs| ==> xs[k] == ss[k];
      forall i | i in SubtitleScan(ss, server).enc
        ensures exists k :: 0 <= k < |ss| && IsEncoded(ss[k]) && ss[k].index == i
      {
        if i !in SubtitleScan(xs, server).enc {
          assert IsEncoded(ss[|ss| - 1]) && ss[|ss| - 1].index == i;
        }
      }
    }
  }

  /** `subtitle_url` has a key for exactly the uids of the "External" subtitles, and holds
      the resolved URL of the last such stream with that uid. */
  lemma {:induction false} SubtitleUrls(ss: seq<MediaStream>, server: string)
    ensures forall i :: i in SubtitleScan(ss, server).url <==>
                        exists k :: 0 <= k < |ss| && IsExternalDelivery(ss[k]) && ss[k].index == i
    ensures forall k :: 0 <= k < |ss| && IsExternalDelivery(ss[k]) &&
                        (forall k' :: k < k' < |ss| && IsExternalDelivery(ss[k']) ==> ss[k'].index != ss[k].index)
                        ==> SubtitleScan(ss, server).url[ss[k].index] == ExternalSubtitleUrl(ss[k], server)
  {
    if ss != [] {
      var xs, x := ss[..|ss| - 1], ss[|ss| - 1];
      SubtitleUrls(xs, server);
      assert forall k :: 0 <= k < |xs| ==> xs[k] == ss[k];
      forall i | i in SubtitleScan(ss, server).url
        ensures exists k :: 0 <= k < |ss| && IsExternalDelivery(ss[k]) && ss[k].index == i
      {
        if i !in SubtitleScan(xs, server).url {
          assert IsExternalDelivery(ss[|ss| - 1]) && ss[|ss| - 1].index == i;
        }
      }
    }
  }

  /** `subtitle_uid` has a key for exactly the counter values at which an "Embed" subtitle
      was met, and holds the uid of the last such stream. */
  lemma {:induction false} SubtitleEmbeddedUids(ss: seq<MediaStream>, server: string)
    ensures forall j :: j in SubtitleScan(ss, server).uid <==>
                        exists k :: 0 <= k < |ss| && IsEmbedded(ss[k]) && SubtitleSlot(ss, k) == j
    ensures forall k :: 0 <= k < |ss| && IsEmbedded(ss[k]) &&
                        (forall k' :: k < k' < |ss| && IsEmbedded(ss[k']) ==> SubtitleSlot(ss, k') != SubtitleSlot(ss, k))
                        ==> SubtitleScan(ss, server).uid[SubtitleSlot(ss, k)] == ss[k].index
  {
    if ss != [] {
      var xs, x := ss[..|ss| - 1], ss[|ss| - 1];
      SubtitleEmbeddedUids(xs, server);
      SubtitleCounter(xs, server);
      var p, q := SubtitleScan(xs, server), SubtitleScan(ss, server);
      assert p.next == SubtitleSlot(ss, |xs|) by { assert ss[..|xs|] == xs; }
      forall k | 0 <= k < |xs|
        ensures ss[k] == xs[k] && SubtitleSlot(ss, k) == SubtitleSlot(xs, k)
      {
        assert ss[..k] == xs[..k];
      }
      forall j | j in q.uid
        ensures exists k :: 0 <= k < |ss| && IsEmbedded(ss[k]) && SubtitleSlot(ss, k) == j
      {
        if j !in p.uid {
          assert IsEmbedded(ss[|xs|]) && SubtitleSlot(ss, |xs|) == j;
        } else {
          var k :| 0 <= k < |xs| && IsEmbedded(xs[k]) && SubtitleSlot(xs, k) == j;
          assert IsEmbedded(ss[k]) && SubtitleSlot(ss, k) == j;
        }
      }
      forall j | exists k :: 0 <= k < |ss| && IsEmbedded(ss[k]) && SubtitleSlot(ss, k) == j
        ensures j in q.uid
      {
        var k :| 0 <= k < |ss| && IsEmbedded(ss[k]) && SubtitleSlot(ss, k) == j;
        if k < |xs| {
          assert IsEmbedded(xs[k]) && SubtitleSlot(xs, k) == j;
        }
      }
      forall k | 0 <= k < |ss| && IsEmbedded(ss[k]) &&
                 (forall k' :: k < k' < |ss| && IsEmbedded(ss[k']) ==> SubtitleSlot(ss, k') != SubtitleSlot(ss, k))
        ensures q.uid[SubtitleSlot(ss, k)] == ss[k].index
      {
        if k < |xs| {
          assert IsEmbedded(x) ==> SubtitleSlot(ss, |xs|) != SubtitleSlot(ss, k);
          assert forall k' :: k < k' < |xs| && IsEmbedded(xs[k']) ==> SubtitleSlot(xs, k') != SubtitleSlot(xs, k);
        }
      }
    }
  }

  /** `subtitle_seq` has a key for exactly the uids of the "Embed" subtitles. */
  lemma {:induction false} SubtitleEmbeddedSeqKeys(ss: seq<MediaStream>, server: string)
    ensures forall i :: i in SubtitleScan(ss, server).seqOf <==>
                        exists k :: 0 <= k < |ss| && IsEmbedded(ss[k]) && ss[k].index == i
  {
    if ss != [] {
      var xs, x := ss[..|ss| - 1], ss[|ss| - 1];
      SubtitleEmbeddedSeqKeys(xs, server);
      var p, q := SubtitleScan(xs, server), SubtitleScan(ss, server);
      assert forall k :: 0 <= k < |xs| ==> ss[k] == xs[k];
      forall i | i in q.seqOf
        ensures exists k :: 0 <= k < |ss| && IsEmbedded(ss[k]) && ss[k].index == i
      {
        if i !in p.seqOf {
          assert IsEmbedded(ss[|xs|]) && ss[|xs|].index == i;
        }
      }
      forall i | exists k :: 0 <= k < |ss| && IsEmbedded(ss[k]) && ss[k].index == i
        ensures i in q.seqOf
      {
        var k :| 0 <= k < |ss| && IsEmbedded(ss[k]) && ss[k].index == i;
        if k < |xs| {
          assert IsEmbedded(xs[k]) && xs[k].index == i;
        }
      }
    }
  }

  /** `subtitle_seq` maps the uid of an "Embed" subtitle to the counter value at the last
      such stream with that uid. */
  lemma {:induction false} SubtitleEmbeddedSeqValues(ss: seq<MediaStream>, server: string)
    ensures forall k :: 0 <= k < |ss| && IsEmbedded(ss[k]) &&
                        (forall k' :: k < k' < |ss| && IsEmbedded(ss[k']) ==> ss[k'].index != ss[k].index)
                        ==> ss[k].index in SubtitleScan(ss, server).seqOf &&
                            SubtitleScan(ss, server).seqOf[ss[k].index] == SubtitleSlot(ss, k)
  {
    if ss != [] {
      var xs, x := ss[..|ss| - 1], ss[|ss| - 1];
      SubtitleEmbeddedSeqValues(xs, server);
      SubtitleCounter(xs, server);
      var p, q := SubtitleScan(xs, server), SubtitleScan(ss, server);
      assert p.next == SubtitleSlot(ss, |xs|) by { assert ss[..|xs|] == xs; }
      forall k | 0 <= k < |ss| && IsEmbedded(ss[k]) &&
                 (forall k' :: k < k' < |ss| && IsEmbedded(ss[k']) ==> ss[k'].index != ss[k].index)
        ensures ss[k].index in q.seqOf && q.seqOf[ss[k].index] == SubtitleSlot(ss, k)
      {
        if k < |xs| {
          assert ss[k] == xs[k];
          assert SubtitleSlot(ss, k) == SubtitleSlot(xs, k) by { assert ss[..k] == xs[..k]; }
          assert IsEmbedded(x) ==> x.index != ss[k].index;
          forall k' | k < k' < |xs| && IsEmbedded(xs[k'])
            ensures xs[k'].index != xs[k].index
          {
            assert xs[k'] == ss[k'];
          }
        }
      }
    }
  }

  /** When every subtitle stream is internal, each "Embed" subtitle keeps its own slot:
      `subtitle_uid` maps the counter value at that stream to its uid. */
  lemma {:induction false} EmbeddedSubtitleAtCounter(ss: seq<MediaStream>, server: string)
    requires forall k :: 0 <= k < |ss| && IsSubtitle(ss[k]) ==> TakesSlot(ss[k])
    ensures forall k :: 0 <= k < |ss| && IsEmbedded(ss[k]) ==>
                        SubtitleSlot(ss, k) in SubtitleScan(ss, server).uid &&
                        SubtitleScan(ss, server).uid[SubtitleSlot(ss, k)] == ss[k].index
  {
    SubtitleEmbeddedUids(ss, server);
    forall k | 0 <= k < |ss| && IsEmbedded(ss[k])
      ensures forall k' :: k < k' < |ss| && IsEmbedded(ss[k']) ==> SubtitleSlot(ss, k') != SubtitleSlot(ss, k)
    {
      forall k' | k < k' < |ss| && IsEmbedded(ss[k'])
        ensures SubtitleSlot(ss, k') > SubtitleSlot(ss, k)
      {
        SlotCountMonotone(ss, "Subtitle", k + 1, k');
        assert ss[..k + 1][..k] == ss[..k];
      }
    }
  }

  // ---------------------------------------------------------------- the layout

  /** The six maps and sets `map_streams` leaves on the `Video`. */
  datatype Layout = Layout(
    audioSeq: map<int, int>, audioUid: map<int, int>,
    subtitleSeq: map<int, int>, subtitleUid: map<int, int>,
    subtitleUrl: map<int, string>, subtitleEnc: set<int>)

  const EmptyLayout := Layout(map[], map[], map[], map[], map[], {})

  /** Track numbers are derived only for a present source whose `Protocol` is "File". */
  predicate IsFileSource(src: Option<MediaSource>) {
    src.Some? && src.value.protocol == "File"
  }

  /** The layout `map_streams` computes for the current media source. */
  function LayoutOf(src: Option<MediaSource>, server: string): (l: Layout)
    ensures !IsFileSource(src) ==> l == EmptyLayout
  {
    if !IsFileSource(src) then EmptyLayout
    else
      var a := AudioScan(src.value.streams);
      var t := SubtitleScan(src.value.streams, server);
      Layout(a.seqOf, a.uid, t.seqOf, t.uid, t.url, t.enc)
  }

  /** Default adoption (media.py:77-81): the source's default is taken only while the
      selection is still unset. */
  function Adopt(current: Option<int>, declared: Option<int>): (r: Option<int>)
    ensures current.Some? ==> r == current
    ensures current.None? ==> r == declared
  {
    if declared.Some? && current.None? then declared else current
  }

  /** Adopting the same default a second time changes nothing. */
  lemma AdoptIdempotent(current: Option<int>, declared: Option<int>)
    ensures Adopt(Adopt(current, declared), declared) == Adopt(current, declared)
  {
  }
}
