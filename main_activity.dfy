/**
 * The story list screen's reading of the "last uploaded story" record: split
 * on '|', a one-hour freshness window against the current time, and removal
 * of a stale record.
 */
module MainScreen {
  import opened Wrappers
  import opened KotlinText
  import opened Api
  import opened Preferences
  import opened CameraScreen

  const FreshnessWindowMillis: int := 3_600_000

  /** The exceptions a malformed record raises. */
  datatype Exception = IndexOutOfBounds | NumberFormat

  /** A computation that returns normally or throws. */
  datatype Completion<+T> = Normal(value: T) | Threw(exception: Exception)

  datatype StoredStory = StoredStory(description: string, uri: string, timestamp: int)

  /** The (description, uri) pair handed back to the screen. */
  datatype UploadedStory = UploadedStory(description: string, uri: string)

  /**
   * `val (description, uriString, timestampString) = storyData.split("|")`
   * followed by `timestampString.toLong()`: fewer than three fields throw
   * IndexOutOfBounds, a third field that is not a Long throws NumberFormat,
   * and fields after the third are ignored.
   */
  function DecodeRecord(data: string): (r: Completion<StoredStory>)
    ensures |Split(data, '|')| < 3 ==> r == Threw(IndexOutOfBounds)
    ensures |Split(data, '|')| >= 3 ==>
              (r.Normal? <==> ParseLong(Split(data, '|')[2]).Some?) &&
              (r.Threw? ==> r.exception == NumberFormat)
    ensures r.Normal? ==>
              r.value.description == Split(data, '|')[0] && r.value.uri == Split(data, '|')[1] &&
              IsLong(r.value.timestamp) &&
              ParseLong(Split(data, '|')[2]) == Some(r.value.timestamp)
  {
    var parts := Split(data, '|');
    if |parts| < 3 then Threw(IndexOutOfBounds)
    else
      match ParseLong(parts[2])
      case None => Threw(NumberFormat)
      case Some(timestamp) => Normal(StoredStory(parts[0], parts[1], timestamp))
  }

  /** `System.currentTimeMillis() - timestamp <= 3600_000`, the subtraction in 64-bit two's complement. */
  predicate IsFresh(now: int, timestamp: int) {
    WrapLong(now - timestamp) <= FreshnessWindowMillis
  }

  /**
   * Without overflow the window is "at most one hour old": an age of exactly
   * one hour is fresh, one millisecond more is stale, and a timestamp in the
   * future is fresh.
   */
  lemma FreshnessBoundary(now: int, timestamp: int)
    requires IsLong(now - timestamp)
    ensures IsFresh(now, timestamp) <==> now - timestamp <= FreshnessWindowMillis
    ensures now - timestamp == FreshnessWindowMillis ==> IsFresh(now, timestamp)
    ensures now - timestamp == FreshnessWindowMillis + 1 ==> !IsFresh(now, timestamp)
    ensures timestamp > now ==> IsFresh(now, timestamp)
  {
  }

  /** The subtraction wraps: a record stamped with the least Long never goes stale at a non-negative time. */
  lemma LeastTimestampNeverStale(now: int)
    requires 0 <= now <= LongMax
    ensures IsFresh(now, LongMin)
  {
    assert WrapLong(now - LongMin) == now + LongMin;
  }

  /** Round trip: a record written for texts without '|' reads back as exactly what was written. */
  lemma RecordRoundTrip(description: string, uri: string, timestamp: int)
    requires '|' !in description && '|' !in uri && IsLong(timestamp)
    ensures DecodeRecord(StoryRecord(description, uri, timestamp)) == Normal(StoredStory(description, uri, timestamp))
  {
    StoryRecordFields(description, uri, timestamp);
    LongRoundTrip(timestamp);
  }

  /** Fields after the third do not change what the record decodes to. */
  lemma ExtraFieldsIgnored(parts: seq<string>)
    requires |parts| >= 3
    requires forall i :: 0 <= i < |parts| ==> '|' !in parts[i]
    ensures DecodeRecord(Join(parts, '|')) == DecodeRecord(Join(parts[..3], '|'))
  {
    var first := parts[..3];
    SplitJoin(parts, '|');
    SplitJoin(first, '|');
    assert Split(Join(parts, '|'), '|')[..3] == Split(Join(first, '|'), '|');
  }

  /**
   * A description holding a '|' does not survive: its second half is read as
   * the uri and the uri as the timestamp, which throws unless the uri happens
   * to be a number.
   */
  lemma PipeInDescriptionMisread(before: string, after: string, uri: string, timestamp: int)
    requires '|' !in before && '|' !in after && '|' !in uri && IsLong(timestamp)
    ensures DecodeRecord(StoryRecord(before + "|" + after, uri, timestamp)) ==
              if ParseLong(uri).Some? then Normal(StoredStory(before, after, ParseLong(uri).value))
              else Threw(NumberFormat)
    ensures DecodeRecord(StoryRecord(before + "|" + after, uri, timestamp)) !=
              Normal(StoredStory(before + "|" + after, uri, timestamp))
  {
    var parts := [before, after, uri, LongToString(timestamp)];
    assert '|' !in parts[3];
    assert StoryRecord(before + "|" + after, uri, timestamp) == Join(parts, '|');
    SplitJoin(parts, '|');
    assert |before + "|" + after| > |before|;
  }

  /** The story that `onCreate` puts at the head of its list. */
  function TempStory(s: UploadedStory): (item: ListStoryItem)
    ensures item.description == Some(s.description) && item.photoUrl == Some(s.uri)
    ensures item.id == None && item.name == None && item.createdAt == None
  {
    ListStoryItem(id := None, name := None, description := Some(s.description), photoUrl := Some(s.uri), createdAt := None)
  }

  class MainActivity {
    const preferences: SharedPreferences

    constructor (preferences: SharedPreferences)
      ensures this.preferences == preferences
    {
      this.preferences := preferences;
    }

    /**
     * `getUploadedStory`: null when there is no record; a malformed record
     * throws; a fresh record gives its description and uri and stays; a
     * stale one gives null and only its key is removed.
     */
    method GetUploadedStory(now: int) returns (r: Completion<Option<UploadedStory>>)
      requires IsLong(now)
      modifies preferences
      ensures LastUploadedStoryKey !in old(preferences.entries) ==>
                r == Normal(None) && preferences.entries == old(preferences.entries)
      ensures LastUploadedStoryKey in old(preferences.entries) ==>
                match DecodeRecord(old(preferences.entries)[LastUploadedStoryKey])
                case Threw(e) =>
                  r == Threw(e) && preferences.entries == old(preferences.entries)
                case Normal(story) =>
                  if IsFresh(now, story.timestamp) then
                    r == Normal(Some(UploadedStory(story.description, story.uri))) &&
                    preferences.entries == old(preferences.entries)
                  else
                    r == Normal(None) && preferences.entries == old(preferences.entries) - {LastUploadedStoryKey}
    {
      var storyData := preferences.GetString(LastUploadedStoryKey);
      if storyData.None? {
        return Normal(None);
      }
      var parts := Split(storyData.value, '|');
      if |parts| < 3 {
        return Threw(IndexOutOfBounds);
      }
      var description, uriString, timestampString := parts[0], parts[1], parts[2];
      var timestamp := ParseLong(timestampString);
      if timestamp.None? {
        return Threw(NumberFormat);
      }
      if WrapLong(now - timestamp.value) <= FreshnessWindowMillis {
        return Normal(Some(UploadedStory(description, uriString)));
      }
      preferences.Remove(LastUploadedStoryKey);
      return Normal(None);
    }

    /**
     * The story list `onCreate` builds: empty, or the fresh uploaded story
     * prepended at index 0. A malformed record makes `onCreate` throw.
     */
    method OnCreateStoryList(now: int) returns (r: Completion<seq<ListStoryItem>>)
      requires IsLong(now)
      modifies preferences
      ensures LastUploadedStoryKey !in old(preferences.entries) ==>
                r == Normal([]) && preferences.entries == old(preferences.entries)
      ensures LastUploadedStoryKey in old(preferences.entries) ==>
                match DecodeRecord(old(preferences.entries)[LastUploadedStoryKey])
                case Threw(e) => r == Threw(e) && preferences.entries == old(preferences.entries)
                case Normal(story) =>
                  if IsFresh(now, story.timestamp) then
                    r == Normal([TempStory(UploadedStory(story.description, story.uri))]) &&
                    preferences.entries == old(preferences.entries)
                  else
                    r == Normal([]) && preferences.entries == old(preferences.entries) - {LastUploadedStoryKey}
    {
      var storyList: seq<ListStoryItem> := [];
      var uploadedStory := GetUploadedStory(now);
      if uploadedStory.Threw? {
        return Threw(uploadedStory.exception);
      }
      if uploadedStory.value.Some? {
        var tempStory := TempStory(uploadedStory.value.value);
        storyList := [tempStory] + storyList;
        assert storyList == [tempStory];
      }
      return Normal(storyList);
    }
  }

  /**
   * Saving a story and reading it back within the hour, with texts free of
   * '|', returns exactly the saved description and uri and keeps the record.
   */
  method SaveThenRead(camera: CameraMain, main: MainActivity,
                      description: string, uri: string, savedAt: int, now: int)
    returns (r: Completion<Option<UploadedStory>>)
    requires camera.preferences == main.preferences
    requires '|' !in description && '|' !in uri
    requires IsLong(savedAt) && IsLong(now) && IsFresh(now, savedAt)
    modifies camera.preferences
    ensures r == Normal(Some(UploadedStory(description, uri)))
    ensures camera.preferences.entries ==
              old(camera.preferences.entries)[LastUploadedStoryKey := StoryRecord(description, uri, savedAt)]
  {
    camera.SaveUploadedStory(description, uri, savedAt);
    RecordRoundTrip(description, uri, savedAt);
    r := main.GetUploadedStory(now);
  }
}
