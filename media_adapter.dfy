/**
 * DesignPatterns/Adapter: an audio player that accepts four formats in any
 * letter case and plays each through a new media adapter, and the adapter,
 * which holds a VLC or MP4 player only when it was built for "vlc" or
 * "mp4". The players' own classes are not part of this model: a call on
 * them is recorded as an event, as is each printed header line.
 */
module MediaAdapterPattern {
  import opened JavaLang

  datatype AdvancedPlayer = VlcPlayer | Mp4Player

  /** What playing emits, in order. */
  datatype Event =
    | Header(fileName: string)
    | PlayVlc(player: AdvancedPlayer, fileName: string)
    | PlayMp4(player: AdvancedPlayer, fileName: string)
    | NotSupported(audioType: string)

  /** The player the adapter's constructor selects; None is the null field. */
  function SelectPlayer(audioType: string): (r: Option<AdvancedPlayer>)
    ensures r.Some? <==> EqualsIgnoreCase(audioType, "vlc") || EqualsIgnoreCase(audioType, "mp4")
    ensures r == Some(VlcPlayer) <==> EqualsIgnoreCase(audioType, "vlc")
  {
    if EqualsIgnoreCase(audioType, "vlc") then Some(VlcPlayer)
    else if EqualsIgnoreCase(audioType, "mp4") then Some(Mp4Player)
    else None
  }

  /** The outcome of one play call: the events emitted and the exception, if one was thrown. */
  datatype Outcome = Outcome(events: seq<Event>, thrown: Option<Exception>)

  /**
   * MediaAdapter.play: the header, then playVlc or playMp4 on the held
   * player for those types, dereferencing the field when it is null; for
   * any other type only the header.
   */
  function AdapterPlay(player: Option<AdvancedPlayer>, audioType: string, fileName: string): (r: Outcome)
    ensures |r.events| >= 1 && r.events[0] == Header(fileName)
    ensures player.Some? ==> r.thrown == None
    ensures r.thrown.Some? ==> r.thrown == Some(NullPointer) && player.None? && r.events == [Header(fileName)]
  {
    if EqualsIgnoreCase(audioType, "vlc") || EqualsIgnoreCase(audioType, "mp4") then
      if player.None? then Outcome([Header(fileName)], Some(NullPointer))
      else if EqualsIgnoreCase(audioType, "vlc") then Outcome([Header(fileName), PlayVlc(player.value, fileName)], None)
      else Outcome([Header(fileName), PlayMp4(player.value, fileName)], None)
    else Outcome([Header(fileName)], None)
  }

  /** The formats the audio player accepts, in any letter case. */
  predicate SupportedFormat(audioType: string)
  {
    EqualsIgnoreCase(audioType, "vlc") || EqualsIgnoreCase(audioType, "mp4")
    || EqualsIgnoreCase(audioType, "mp3") || EqualsIgnoreCase(audioType, "wma")
  }

  class MediaAdapter {
    const advanceMediaPlayer: Option<AdvancedPlayer>

    constructor (audioType: string)
      ensures advanceMediaPlayer == SelectPlayer(audioType)
    {
      if EqualsIgnoreCase(audioType, "vlc") {
        advanceMediaPlayer := Some(VlcPlayer);
      } else if EqualsIgnoreCase(audioType, "mp4") {
        advanceMediaPlayer := Some(Mp4Player);
      } else {
        advanceMediaPlayer := None;
      }
    }

    method Play(audioType: string, fileName: string) returns (outcome: Outcome)
      ensures outcome == AdapterPlay(advanceMediaPlayer, audioType, fileName)
    {
      var events := [Header(fileName)];
      if EqualsIgnoreCase(audioType, "vlc") {
        if advanceMediaPlayer.None? {
          return Outcome(events, Some(NullPointer));
        }
        events := events + [PlayVlc(advanceMediaPlayer.value, fileName)];
      } else if EqualsIgnoreCase(audioType, "mp4") {
        if advanceMediaPlayer.None? {
          return Outcome(events, Some(NullPointer));
        }
        events := events + [PlayMp4(advanceMediaPlayer.value, fileName)];
      }
      return Outcome(events, None);
    }
  }

  /**
   * An adapter built for the type it plays never throws: "vlc" reaches
   * the VLC player, "mp4" the MP4 player, and "mp3" or "wma" only print
   * the header.
   */
  lemma MatchingAdapterPlays(audioType: string, fileName: string)
    requires SupportedFormat(audioType)
    ensures AdapterPlay(SelectPlayer(audioType), audioType, fileName).thrown == None
    ensures EqualsIgnoreCase(audioType, "vlc") ==>
      AdapterPlay(SelectPlayer(audioType), audioType, fileName).events == [Header(fileName), PlayVlc(VlcPlayer, fileName)]
    ensures EqualsIgnoreCase(audioType, "mp4") ==>
      AdapterPlay(SelectPlayer(audioType), audioType, fileName).events == [Header(fileName), PlayMp4(Mp4Player, fileName)]
    ensures !EqualsIgnoreCase(audioType, "vlc") && !EqualsIgnoreCase(audioType, "mp4") ==>
      AdapterPlay(SelectPlayer(audioType), audioType, fileName).events == [Header(fileName)]
  {
    if EqualsIgnoreCase(audioType, "vlc") {
      VlcIsNotMp4(audioType);
    }
  }

  /** No text equals both "vlc" and "mp4" ignoring case. */
  lemma VlcIsNotMp4(audioType: string)
    requires EqualsIgnoreCase(audioType, "vlc")
    ensures !EqualsIgnoreCase(audioType, "mp4")
  {
    assert ToLowerAscii("vlc"[0]) != ToLowerAscii("mp4"[0]);
  }

  /** An adapter built for another type throws on "vlc" after printing the header. */
  lemma MismatchedAdapterThrows(fileName: string)
    ensures AdapterPlay(SelectPlayer("mp3"), "vlc", fileName) == Outcome([Header(fileName)], Some(NullPointer))
  {
    assert ToLowerAscii("mp3"[0]) != ToLowerAscii("vlc"[0]);
    assert "mp3"[2] != "mp4"[2];
  }

  class AudioPlayer {
    var mediaAdapter: MediaAdapter?

    constructor ()
      ensures mediaAdapter == null
    {
      mediaAdapter := null;
    }

    /**
     * play: the header first; a supported format builds a new adapter for
     * the type, keeps it in the field and plays through it; any other type
     * reports it is not supported and leaves the field as it was.
     */
    method Play(audioType: string, fileName: string) returns (events: seq<Event>, thrown: Option<Exception>)
      modifies this
      ensures |events| >= 1 && events[0] == Header(fileName)
      ensures SupportedFormat(audioType) ==> fresh(mediaAdapter)
      ensures SupportedFormat(audioType) ==>
        mediaAdapter != null && mediaAdapter.advanceMediaPlayer == SelectPlayer(audioType)
      ensures SupportedFormat(audioType) ==>
        events == [Header(fileName)] + AdapterPlay(SelectPlayer(audioType), audioType, fileName).events && thrown == None
      ensures !SupportedFormat(audioType) ==>
        events == [Header(fileName), NotSupported(audioType)] && thrown == None && mediaAdapter == old(mediaAdapter)
    {
      events := [Header(fileName)];
      thrown := None;
      if SupportedFormat(audioType) {
        mediaAdapter := new MediaAdapter(audioType);
        var outcome := mediaAdapter.Play(audioType, fileName);
        MatchingAdapterPlays(audioType, fileName);
        events := events + outcome.events;
        thrown := outcome.thrown;
      } else {
        events := events + [NotSupported(audioType)];
      }
    }
  }

  /** Upper-case "VLC" is played through the VLC player. */
  method PlayUpperCaseVlc() returns (events: seq<Event>)
    ensures events == [Header("song.vlc"), Header("song.vlc"), PlayVlc(VlcPlayer, "song.vlc")]
  {
    var player := new AudioPlayer();
    assert EqualsIgnoreCase("VLC", "vlc");
    MatchingAdapterPlays("VLC", "song.vlc");
    var thrown;
    events, thrown := player.Play("VLC", "song.vlc");
  }
}
