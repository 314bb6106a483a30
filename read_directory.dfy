/**
 * The read-directory operation of a provided file system: the providing
 * extension answers with a list of entry metadata, which is converted into the
 * file API's directory entries and handed to the caller's callback.
 */
module ReadDirectory {
  import opened Wrappers

  /** A value of the metadata's open-ended properties dictionary. */
  datatype PropertyValue = StringValue(s: string) | OtherValue

  /** One entry as the extension reports it; the size arrives as a double. */
  datatype EntryMetadata = EntryMetadata(
    isDirectory: bool,
    name: string,
    size: real,
    modificationTime: map<string, PropertyValue>)

  /** One entry as the file API receives it. */
  datatype DirectoryEntry = DirectoryEntry(
    isDirectory: bool,
    name: string,
    size: int,
    lastModifiedTime: int)

  /** base::File::Error; FILE_OK is 0 and every failure is negative. */
  const FileOk: int := 0

  /** What the callback receives: the error, the entries and whether more will follow. */
  datatype Reply = Reply(error: int, entries: seq<DirectoryEntry>, hasMore: bool)

  /** The conversion of a double to int64, truncating toward zero (out-of-range values are not modelled). */
  function TruncateToInt(x: real): (n: int)
    ensures x >= 0.0 ==> n as real <= x < n as real + 1.0
    ensures x < 0.0 ==> n as real - 1.0 < x <= n as real
  {
    if x >= 0.0 then x.Floor else -((-x).Floor)
  }

  /** The "value" string of the modification time, if present and a string. */
  function ModificationTimeString(m: EntryMetadata): (r: Option<string>)
    ensures r.Some? <==> "value" in m.modificationTime && m.modificationTime["value"].StringValue?
  {
    if "value" in m.modificationTime && m.modificationTime["value"].StringValue?
    then Some(m.modificationTime["value"].s)
    else None
  }

  /** The entry converted, or None when its time is missing or does not parse. */
  function ConvertEntry(m: EntryMetadata, parseTime: string -> Option<int>): (r: Option<DirectoryEntry>)
    ensures r.Some? ==>
      r.value.isDirectory == m.isDirectory && r.value.name == m.name && r.value.size == TruncateToInt(m.size)
    ensures r.Some? <==> ModificationTimeString(m).Some? && parseTime(ModificationTimeString(m).value).Some?
  {
    match ModificationTimeString(m)
    case None => None
    case Some(t) =>
      match parseTime(t)
      case None => None
      case Some(time) => Some(DirectoryEntry(m.isDirectory, m.name, TruncateToInt(m.size), time))
  }

  /** The entries converted before the first failure, and whether there was none. */
  function ConvertedPrefix(entries: seq<EntryMetadata>, parseTime: string -> Option<int>): (r: (seq<DirectoryEntry>, bool))
    ensures |r.0| <= |entries| && (r.1 ==> |r.0| == |entries|)
    decreases |entries|
  {
    if entries == [] then ([], true)
    else match ConvertEntry(entries[0], parseTime)
      case None => ([], false)
      case Some(e) =>
        var rest := ConvertedPrefix(entries[1..], parseTime);
        ([e] + rest.0, rest.1)
  }

  /**
   * The conversion succeeds exactly when every entry converts, and then gives
   * one entry per input entry in order; otherwise it stops at the first entry
   * that does not convert, with the entries before it converted.
   */
  lemma {:induction false} ConvertedPrefixMeaning(entries: seq<EntryMetadata>, parseTime: string -> Option<int>)
    ensures var (done, ok) := ConvertedPrefix(entries, parseTime);
      && (forall i :: 0 <= i < |done| ==> ConvertEntry(entries[i], parseTime) == Some(done[i]))
      && (ok <==> forall i :: 0 <= i < |entries| ==> ConvertEntry(entries[i], parseTime).Some?)
      && (!ok ==> ConvertEntry(entries[|done|], parseTime).None?)
    decreases |entries|
  {
    if entries != [] && ConvertEntry(entries[0], parseTime).Some? {
      ConvertedPrefixMeaning(entries[1..], parseTime);
      var rest := ConvertedPrefix(entries[1..], parseTime);
      assert forall i :: 1 <= i < |entries| ==> entries[i] == entries[1..][i - 1];
    }
  }

  /** `done` holds the entries converted before position `i`, and the rest of the conversion starts at `i`. */
  predicate ConvertedUpTo(entries: seq<EntryMetadata>, i: nat, done: seq<DirectoryEntry>, parseTime: string -> Option<int>)
    requires i <= |entries|
  {
    var whole, rest := ConvertedPrefix(entries, parseTime), ConvertedPrefix(entries[i..], parseTime);
    whole.0 == done + rest.0 && whole.1 == rest.1
  }

  lemma ConvertedUpToStart(entries: seq<EntryMetadata>, parseTime: string -> Option<int>)
    ensures ConvertedUpTo(entries, 0, [], parseTime)
  {
    assert entries[0..] == entries;
  }

  lemma ConvertedUpToStep(entries: seq<EntryMetadata>, i: nat, done: seq<DirectoryEntry>, parseTime: string -> Option<int>)
    requires i < |entries| && ConvertedUpTo(entries, i, done, parseTime)
    ensures ConvertEntry(entries[i], parseTime).None? ==> ConvertedPrefix(entries, parseTime) == (done, false)
    ensures ConvertEntry(entries[i], parseTime).Some? ==>
      ConvertedUpTo(entries, i + 1, done + [ConvertEntry(entries[i], parseTime).value], parseTime)
  {
    assert entries[i..][0] == entries[i] && entries[i..][1..] == entries[i + 1..];
    assert done + [] == done;
  }

  lemma ConvertedUpToEnd(entries: seq<EntryMetadata>, done: seq<DirectoryEntry>, parseTime: string -> Option<int>)
    requires ConvertedUpTo(entries, |entries|, done, parseTime)
    ensures ConvertedPrefix(entries, parseTime) == (done, true)
  {
    assert entries[|entries|..] == [];
    assert done + [] == done;
  }

  /**
   * ConvertRequestValueToEntryList: `params` is the parsed success payload, if
   * any. Appends the converted entries to `output`, returning false on a missing
   * payload (nothing appended) or at the first entry whose time is missing or
   * does not parse (the entries before it stay appended).
   */
  method ConvertRequestValueToEntryList(params: Option<seq<EntryMetadata>>, output: seq<DirectoryEntry>,
                                        parseTime: string -> Option<int>)
    returns (ok: bool, newOutput: seq<DirectoryEntry>)
    ensures params.None? ==> !ok && newOutput == output
    ensures params.Some? ==> newOutput == output + ConvertedPrefix(params.value, parseTime).0
    ensures params.Some? ==> ok == ConvertedPrefix(params.value, parseTime).1
  {
    newOutput := output;
    if params.None? {
      return false, newOutput;
    }
    var entries := params.value;
    ghost var appended: seq<DirectoryEntry> := [];
    ConvertedUpToStart(entries, parseTime);
    var i := 0;
    while i < |entries|
      invariant 0 <= i <= |entries|
      invariant newOutput == output + appended
      invariant ConvertedUpTo(entries, i, appended, parseTime)
    {
      ConvertedUpToStep(entries, i, appended, parseTime);
      var outputEntry := ConvertEntry(entries[i], parseTime);
      if outputEntry.None? {
        return false, newOutput;
      }
      newOutput := newOutput + [outputEntry.value];
      appended := appended + [outputEntry.value];
      i := i + 1;
    }
    ConvertedUpToEnd(entries, appended, parseTime);
    return true, newOutput;
  }

  /** ReadDirectory::OnSuccess: FILE_OK, the converted entries and the caller's has_more flag. */
  method OnSuccess(params: Option<seq<EntryMetadata>>, hasMore: bool, parseTime: string -> Option<int>)
    returns (reply: Reply)
    ensures reply.error == FileOk && reply.hasMore == hasMore
    ensures params.None? ==> reply.entries == []
    ensures params.Some? ==> reply.entries == ConvertedPrefix(params.value, parseTime).0
  {
    var ok, entryList := ConvertRequestValueToEntryList(params, [], parseTime);
    reply := Reply(FileOk, entryList, hasMore);
  }

  /** ReadDirectory::OnError: the given error, no entries, nothing more to come. */
  function OnError(error: int): (reply: Reply)
    ensures reply.error == error && reply.entries == [] && !reply.hasMore
  {
    Reply(error, [], false)
  }
}
