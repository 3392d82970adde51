/**
 * The two lookup tools over the transcript files in `videos/`. The files are an
 * input, in the order the directory listing yields them; each one either fails to
 * load (unreadable, not JSON, not an object) or is a JSON object whose text fields
 * are given by name, with the length of its `transcript` list when it has one.
 * Any error while handling a file (failed load, missing key) skips that file.
 */
module VideoTools {
  import opened Wrappers
  import opened Seqs
  import opened Text

  datatype VideoFile =
    | Unreadable
    | VideoData(fields: map<string, string>, transcriptLength: Option<nat>)

  datatype VideoSummary = VideoSummary(
    videoId: string, title: string, speaker: string, date: string, duration: string, url: string,
    thumbnail: Option<string>, segmentCount: nat)

  datatype VideoListing = VideoListing(
    videoId: string, title: string, speaker: string, date: string, duration: string, url: string)

  /** The fields both tools read with `video_data[...]`, so a missing one raises. */
  const ListingFields: seq<string> := ["video_id", "title", "speaker", "date", "duration", "url"]

  predicate HasFields(fields: map<string, string>, names: seq<string>) {
    forall k :: 0 <= k < |names| ==> names[k] in fields
  }

  function Field(fields: map<string, string>, name: string): string {
    if name in fields then fields[name] else ""
  }

  function Listing(fields: map<string, string>): VideoListing {
    VideoListing(Field(fields, "video_id"), Field(fields, "title"), Field(fields, "speaker"),
                 Field(fields, "date"), Field(fields, "duration"), Field(fields, "url"))
  }

  /**
   * What `get_video_summary` takes from one file: its summary when the file loads,
   * its `video_id` is the one asked for and every field read is present; otherwise
   * the file raises or does not match, and the search goes on.
   */
  function SummaryOf(f: VideoFile, videoId: string): Option<VideoSummary> {
    if f.Unreadable? || "video_id" !in f.fields || f.fields["video_id"] != videoId then None
    else if !HasFields(f.fields, ListingFields) || f.transcriptLength.None? then None
    else
      var l := Listing(f.fields);
      var thumbnail := if "thumbnail" in f.fields then Some(f.fields["thumbnail"]) else None;
      Some(VideoSummary(l.videoId, l.title, l.speaker, l.date, l.duration, l.url, thumbnail,
                        f.transcriptLength.value))
  }

  datatype SummaryResult =
    | SummaryFound(summary: VideoSummary)
    | SummaryNotFound(message: string)

  function NotFoundMessage(videoId: string): string {
    "Video " + videoId + " not found"
  }

  /** `get_video_summary`: the first file in listing order that yields a summary. */
  method GetVideoSummary(files: seq<VideoFile>, videoId: string) returns (r: SummaryResult)
    ensures r.SummaryFound? ==>
      exists i :: 0 <= i < |files| && SummaryOf(files[i], videoId) == Some(r.summary)
        && forall j :: 0 <= j < i ==> SummaryOf(files[j], videoId).None?
    ensures r.SummaryFound? ==> r.summary.videoId == videoId
    ensures r.SummaryFound? ==>
      exists i :: 0 <= i < |files| && files[i].VideoData? && files[i].transcriptLength == Some(r.summary.segmentCount)
    ensures r.SummaryNotFound? <==> forall i :: 0 <= i < |files| ==> SummaryOf(files[i], videoId).None?
    ensures r.SummaryNotFound? ==> r.message == NotFoundMessage(videoId)
  {
    for i := 0 to |files|
      invariant forall j :: 0 <= j < i ==> SummaryOf(files[j], videoId).None?
    {
      var f := files[i];
      if f.VideoData? && "video_id" in f.fields && f.fields["video_id"] == videoId {
        if HasFields(f.fields, ListingFields) && f.transcriptLength.Some? {
          var l := Listing(f.fields);
          var thumbnail := if "thumbnail" in f.fields then Some(f.fields["thumbnail"]) else None;
          return SummaryFound(VideoSummary(l.videoId, l.title, l.speaker, l.date, l.duration, l.url,
                                           thumbnail, f.transcriptLength.value));
        }
      }
    }
    return SummaryNotFound(NotFoundMessage(videoId));
  }

  // ---------------------------------------------------------------------------
  // search_by_speaker
  // ---------------------------------------------------------------------------

  /** The file loads and its speaker contains the name, case-insensitively. */
  predicate BySpeaker(f: VideoFile, speakerName: string) {
    f.VideoData? && "speaker" in f.fields && ContainsCI(f.fields["speaker"], speakerName)
  }

  /** What `search_by_speaker` takes from one file. */
  function ListingFor(f: VideoFile, speakerName: string): Option<VideoListing> {
    if !BySpeaker(f, speakerName) then None
    else if !HasFields(f.fields, ListingFields) then None
    else Some(Listing(f.fields))
  }

  /** The listing one file contributes: none, or its own. */
  function Listed(f: VideoFile, speakerName: string): (r: seq<VideoListing>)
    ensures |r| <= 1
  {
    match ListingFor(f, speakerName)
    case Some(l) => [l]
    case None => []
  }

  function ListedBy(speakerName: string): VideoFile -> seq<VideoListing> {
    f => Listed(f, speakerName)
  }

  /** `matching_videos`: the listings of the files by that speaker, in listing order. */
  function SpeakerMatches(files: seq<VideoFile>, speakerName: string): seq<VideoListing> {
    FlatMap(files, ListedBy(speakerName))
  }

  datatype SpeakerResult = SpeakerResult(found: bool, count: nat, videos: seq<VideoListing>)

  /** `search_by_speaker`. */
  method SearchBySpeaker(files: seq<VideoFile>, speakerName: string) returns (r: SpeakerResult)
    ensures r.videos == SpeakerMatches(files, speakerName)
    ensures r.count == |r.videos| && r.found == (r.count > 0)
  {
    var matching: seq<VideoListing> := [];
    for i := 0 to |files|
      invariant matching == SpeakerMatches(files[..i], speakerName)
    {
      var f := files[i];
      FlatMapPrefix(files, i, ListedBy(speakerName));
      assert ListedBy(speakerName)(f) == Listed(f, speakerName);
      if f.VideoData? && "speaker" in f.fields {
        if ContainsCI(f.fields["speaker"], speakerName) && HasFields(f.fields, ListingFields) {
          matching := matching + [Listing(f.fields)];
        }
      }
    }
    assert files[..|files|] == files;
    r := SpeakerResult(|matching| > 0, |matching|, matching);
  }

  lemma ListedExactly(f: VideoFile, speakerName: string, v: VideoListing)
    ensures v in Listed(f, speakerName) <==>
      BySpeaker(f, speakerName) && HasFields(f.fields, ListingFields) && v == Listing(f.fields)
  {
  }

  /**
   * A listing is returned exactly when some file that loads, has every listed field
   * and a speaker containing the name (case-insensitively) lists it.
   */
  lemma SpeakerMatchesExactly(files: seq<VideoFile>, speakerName: string, v: VideoListing)
    ensures v in SpeakerMatches(files, speakerName) <==>
      exists i :: 0 <= i < |files| && v in Listed(files[i], speakerName)
  {
    FlatMapMembers(files, ListedBy(speakerName), v);
    assert forall i :: 0 <= i < |files| ==> ListedBy(speakerName)(files[i]) == Listed(files[i], speakerName);
  }

  /** Files that fail to load are skipped: removing them changes nothing. */
  lemma UnreadableSkipped(a: seq<VideoFile>, b: seq<VideoFile>, speakerName: string)
    ensures SpeakerMatches(a + [Unreadable] + b, speakerName) == SpeakerMatches(a + b, speakerName)
  {
    var f := ListedBy(speakerName);
    assert FlatMap(a + [Unreadable], f) == FlatMap(a, f) by {
      FlatMapSnoc(a, Unreadable, f);
      assert f(Unreadable) == [];
    }
    FlatMapConcat(a + [Unreadable], b, f);
    FlatMapConcat(a, b, f);
  }

  /** An empty name is contained in every speaker, so every complete file is listed. */
  lemma EmptyNameListsEveryCompleteFile(f: VideoFile)
    requires f.VideoData? && HasFields(f.fields, ListingFields)
    ensures ListingFor(f, "") == Some(Listing(f.fields))
  {
    assert ListingFields[2] == "speaker";
    ContainsEmpty(Lower(f.fields["speaker"]));
  }
}
