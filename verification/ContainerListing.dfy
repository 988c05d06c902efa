/** Directory listings of a container: the output of the listing script and its parser
    (backend/container-files.ts, lines 13-27 and 52-80). */
module ContainerListing {
  import opened Common

  const SENTINEL := "__TRUNCATED__"
  const MAX_ENTRIES := 500
  const KINDS := ["file", "directory", "link", "other"]

  /** What the script prints for one directory entry; `sizeText` is the output of `stat`. */
  datatype Printed = Printed(name: string, kind: string, sizeText: string)

  datatype FileEntry = FileEntry(name: string, kind: string, size: nat)

  datatype Listing = Listing(path: string, entries: seq<FileEntry>, truncated: bool)

  datatype ListingError = Unavailable

  // ------------------------------------------------------------------ printing

  ghost predicate NulFree(s: string) {
    '\0' !in s
  }

  /** File names hold no NUL and, being last path components, are not empty and hold no slash. */
  ghost predicate Printable(e: Printed) {
    && NulFree(e.name) && e.name != "" && '/' !in e.name
    && e.kind in KINDS
    && NulFree(e.sizeText)
  }

  function Field(text: string): string {
    text + "\0"
  }

  function PrintEntry(e: Printed): string {
    Field(e.name) + Field(e.kind) + Field(e.sizeText)
  }

  /** The loop of the script, `count` entries of the directory having been printed. */
  function PrintFrom(entries: seq<Printed>, count: nat): string {
    if entries == [] then ""
    else if count + 1 > MAX_ENTRIES then Field(SENTINEL)
    else PrintEntry(entries[0]) + PrintFrom(entries[1..], count + 1)
  }

  function ListScript(directory: string, entries: seq<Printed>): string {
    Field(directory) + PrintFrom(entries, 0)
  }

  // ------------------------------------------------------------------- parsing

  /** `s.split("\0")` */
  function SplitNul(s: string): (r: seq<string>)
    ensures |r| >= 1
  {
    if s == "" then [""]
    else if s[0] == '\0' then [""] + SplitNul(s[1..])
    else
      var rest := SplitNul(s[1..]);
      [[s[0]] + rest[0]] + rest[1..]
  }

  predicate FieldsOk(name: string, kind: string) {
    name != "" && '/' !in name && kind in KINDS
  }

  /** The three fields from `i` on; `number` is the numeric value of a size text, 0 if it has none. */
  function EntryAt(fields: seq<string>, i: nat, number: string -> nat): FileEntry
    requires i + 1 < |fields|
  {
    FileEntry(fields[i], fields[i + 1], if i + 2 < |fields| then number(fields[i + 2]) else 0)
  }

  function ParseFrom(fields: seq<string>, i: nat, number: string -> nat): Result<(seq<FileEntry>, bool), ListingError>
    decreases |fields| - i
  {
    if i + 1 >= |fields| then Ok(([], false))
    else if fields[i] == SENTINEL && i + 2 == |fields| then Ok(([], true))
    else if !FieldsOk(fields[i], fields[i + 1]) then Err(Unavailable)
    else
      match ParseFrom(fields, i + 3, number)
      case Err(e) => Err(e)
      case Ok((entries, truncated)) => Ok(([EntryAt(fields, i, number)] + entries, truncated))
  }

  method ParseContainerDirectory(output: string, number: string -> nat) returns (r: Result<Listing, ListingError>)
    ensures var all := SplitNul(output);
            r == match ParseFrom(all[1..], 0, number)
                 case Err(e) => Err(e)
                 case Ok((entries, truncated)) => Ok(Listing(all[0], entries, truncated))
  {
    var fields := SplitNul(output);
    var directory := fields[0];
    fields := fields[1..];
    var entries: seq<FileEntry> := [];
    var truncated := false;
    var i := 0;
    ghost var goal := ParseFrom(fields, 0, number);
    assert goal.Ok? ==> [] + goal.value.0 == goal.value.0;
    while i + 1 < |fields|
      invariant match ParseFrom(fields, i, number)
                case Err(e) => goal == Err(e)
                case Ok((rest, t)) => goal == Ok((entries + rest, t))
      decreases |fields| - i
    {
      if fields[i] == SENTINEL && i + 2 == |fields| {
        truncated := true;
        break;
      }
      if fields[i] == "" || '/' in fields[i] || fields[i + 1] !in KINDS {
        return Err(Unavailable);
      }
      ghost var before, rest := entries, ParseFrom(fields, i + 3, number);
      entries := entries + [EntryAt(fields, i, number)];
      assert rest.Ok? ==> entries + rest.value.0 == before + ([EntryAt(fields, i, number)] + rest.value.0);
      i := i + 3;
    }
    assert entries + [] == entries;
    return Ok(Listing(directory, entries, truncated));
  }

  // ---------------------------------------------------------------- round trip

  lemma {:induction false} SplitField(text: string, rest: string)
    requires NulFree(text)
    ensures SplitNul(Field(text) + rest) == [text] + SplitNul(rest)
  {
    var whole := Field(text) + rest;
    if text == "" {
      assert whole[1..] == rest;
    } else {
      assert whole[1..] == Field(text[1..]) + rest;
      SplitField(text[1..], rest);
      assert [text[0]] + text[1..] == text;
    }
  }

  /** The fields the script prints for the entries, after the directory. */
  function FieldsFrom(entries: seq<Printed>, count: nat): seq<string> {
    if entries == [] then []
    else if count + 1 > MAX_ENTRIES then [SENTINEL]
    else [entries[0].name, entries[0].kind, entries[0].sizeText] + FieldsFrom(entries[1..], count + 1)
  }

  lemma KindsAreNulFree(kind: string)
    requires kind in KINDS
    ensures NulFree(kind)
  {
    assert NulFree("file") && NulFree("directory") && NulFree("link") && NulFree("other");
  }

  lemma SplitTwo(first: string, second: string, rest: string)
    requires NulFree(first) && NulFree(second)
    ensures SplitNul(Field(first) + (Field(second) + rest)) == [first, second] + SplitNul(rest)
  {
    SplitField(second, rest);
    SplitField(first, Field(second) + rest);
  }

  lemma PrintedFields(e: Printed, rest: string)
    ensures PrintEntry(e) + rest == Field(e.name) + (Field(e.kind) + (Field(e.sizeText) + rest))
  {
  }

  lemma SplitEntry(e: Printed, rest: string)
    requires Printable(e)
    ensures SplitNul(PrintEntry(e) + rest) == [e.name, e.kind, e.sizeText] + SplitNul(rest)
  {
    KindsAreNulFree(e.kind);
    SplitTwo(e.kind, e.sizeText, rest);
    SplitField(e.name, Field(e.kind) + (Field(e.sizeText) + rest));
    PrintedFields(e, rest);
  }

  lemma SplitSentinel()
    ensures SplitNul(Field(SENTINEL)) == [SENTINEL, ""]
  {
    assert NulFree(SENTINEL);
    SplitField(SENTINEL, "");
    assert Field(SENTINEL) + "" == Field(SENTINEL);
  }

  lemma SplitMore(e: Printed, printed: string, fields: seq<string>)
    requires Printable(e) && SplitNul(printed) == fields + [""]
    ensures SplitNul(PrintEntry(e) + printed) == [e.name, e.kind, e.sizeText] + fields + [""]
  {
    SplitEntry(e, printed);
  }

  lemma {:induction false} SplitPrinted(entries: seq<Printed>, count: nat)
    requires forall e | e in entries :: Printable(e)
    ensures SplitNul(PrintFrom(entries, count)) == FieldsFrom(entries, count) + [""]
  {
    if entries == [] {
    } else if count + 1 > MAX_ENTRIES {
      SplitSentinel();
    } else {
      SplitPrinted(entries[1..], count + 1);
      SplitMore(entries[0], PrintFrom(entries[1..], count + 1), FieldsFrom(entries[1..], count + 1));
    }
  }

  /** The listed entries are the first `MAX_ENTRIES`. */
  function Shown(entries: seq<Printed>, count: nat, number: string -> nat): seq<FileEntry> {
    if entries == [] || count + 1 > MAX_ENTRIES then []
    else [FileEntry(entries[0].name, entries[0].kind, number(entries[0].sizeText))] + Shown(entries[1..], count + 1, number)
  }

  /** Parsing resumes correctly at every multiple of three: a name equal to the sentinel is never
      two fields from the end, because the fields after it come in threes. */
  lemma {:induction false} ParsePrinted(before: seq<string>, entries: seq<Printed>, count: nat, number: string -> nat)
    requires forall e | e in entries :: Printable(e)
    requires count <= MAX_ENTRIES
    ensures var fields := before + FieldsFrom(entries, count) + [""];
            ParseFrom(fields, |before|, number)
            == Ok((Shown(entries, count, number), |entries| + count > MAX_ENTRIES))
    decreases |entries|
  {
    var fields := before + FieldsFrom(entries, count) + [""];
    if entries == [] || count + 1 > MAX_ENTRIES {
    } else {
      var e := entries[0];
      var printed := [e.name, e.kind, e.sizeText];
      ParsePrinted(before + printed, entries[1..], count + 1, number);
      assert fields == (before + printed) + FieldsFrom(entries[1..], count + 1) + [""];
      assert fields[|before|] == e.name && fields[|before| + 1] == e.kind && fields[|before| + 2] == e.sizeText;
      assert Printable(e);
    }
  }

  lemma {:induction false} ShownAt(entries: seq<Printed>, count: nat, number: string -> nat)
    requires count <= MAX_ENTRIES
    ensures var shown := Shown(entries, count, number);
            && |shown| == (if |entries| + count > MAX_ENTRIES then MAX_ENTRIES - count else |entries|)
            && forall i | 0 <= i < |shown| :: shown[i] == FileEntry(entries[i].name, entries[i].kind, number(entries[i].sizeText))
    decreases |entries|
  {
    if entries == [] || count + 1 > MAX_ENTRIES {
    } else {
      ShownAt(entries[1..], count + 1, number);
    }
  }

  /** For every directory, parsing the script's output gives back its path, the first 500 entries in
      order, and whether there were more, even if some file is called like the sentinel. */
  lemma ListingRoundTrip(directory: string, entries: seq<Printed>, number: string -> nat)
    requires NulFree(directory) && forall e | e in entries :: Printable(e)
    ensures var all := SplitNul(ListScript(directory, entries));
            var parsed := ParseFrom(all[1..], 0, number);
            && all[0] == directory
            && parsed.Ok?
            && (parsed.value.1 <==> |entries| > MAX_ENTRIES)
            && |parsed.value.0| == (if |entries| > MAX_ENTRIES then MAX_ENTRIES else |entries|)
            && forall i | 0 <= i < |parsed.value.0| ::
                 parsed.value.0[i] == FileEntry(entries[i].name, entries[i].kind, number(entries[i].sizeText))
  {
    SplitField(directory, PrintFrom(entries, 0));
    SplitPrinted(entries, 0);
    var fields := FieldsFrom(entries, 0) + [""];
    assert [] + FieldsFrom(entries, 0) + [""] == fields;
    ParsePrinted([], entries, 0, number);
    assert SplitNul(ListScript(directory, entries))[1..] == fields;
    ShownAt(entries, 0, number);
  }

  // ------------------------------------------------------- any list of fields

  /** The mark at the very end that the listing was cut short. */
  predicate IsCut(fields: seq<string>, g: nat) {
    g + 2 == |fields| && fields[g] == "__TRUNCATED__"
  }

  /** A name that is a single path component, followed by one of the four kinds. */
  predicate IsEntry(fields: seq<string>, g: nat) {
    g + 1 < |fields| && fields[g] != "" && (forall c | c in fields[g] :: c != '/')
    && fields[g + 1] in {"file", "directory", "link", "other"}
  }

  ghost predicate AllGroups(fields: seq<string>, i: nat) {
    forall g: nat | i <= g && (g - i) % 3 == 0 && g + 1 < |fields| :: IsCut(fields, g) || IsEntry(fields, g)
  }

  lemma FieldsOkMeans(fields: seq<string>, g: nat)
    requires g + 1 < |fields|
    ensures FieldsOk(fields[g], fields[g + 1]) <==> IsEntry(fields, g)
  {
  }

  lemma GroupsGoOn(fields: seq<string>, i: nat)
    requires i + 1 < |fields|
    ensures AllGroups(fields, i) <==> (IsCut(fields, i) || IsEntry(fields, i)) && AllGroups(fields, i + 3)
  {
    if AllGroups(fields, i) {
      forall g: nat | i + 3 <= g && (g - (i + 3)) % 3 == 0 && g + 1 < |fields| ensures IsCut(fields, g) || IsEntry(fields, g) {
        assert (g - i) % 3 == 0;
      }
    }
    if (IsCut(fields, i) || IsEntry(fields, i)) && AllGroups(fields, i + 3) {
      forall g: nat | i <= g && (g - i) % 3 == 0 && g + 1 < |fields| ensures IsCut(fields, g) || IsEntry(fields, g) {
        if g != i {
          assert i + 3 <= g && (g - (i + 3)) % 3 == 0;
        }
      }
    }
  }

  /** Any output is read exactly when each third field, from the first on, starts an entry, or is the mark
      two fields from the end. */
  lemma {:induction false} ParsesExactly(fields: seq<string>, i: nat, number: string -> nat)
    ensures ParseFrom(fields, i, number).Ok? <==> AllGroups(fields, i)
    decreases |fields| - i
  {
    if i + 1 < |fields| {
      GroupsGoOn(fields, i);
      FieldsOkMeans(fields, i);
      if IsCut(fields, i) {
        assert AllGroups(fields, i + 3);
      } else if IsEntry(fields, i) {
        ParsesExactly(fields, i + 3, number);
      }
    }
  }

  /** The entry holds the three fields from `g` on; a missing size counts as 0. */
  predicate Holds(entry: FileEntry, fields: seq<string>, g: int, number: string -> nat) {
    && 0 <= g && g + 1 < |fields| && entry.name == fields[g] && entry.kind == fields[g + 1]
    && entry.size == if g + 2 < |fields| then number(fields[g + 2]) else 0
  }

  /** The entries are the fields in order, up to the mark or the end. */
  lemma {:induction false} ParsedInOrder(fields: seq<string>, i: nat, number: string -> nat)
    requires ParseFrom(fields, i, number).Ok?
    ensures var (entries, truncated) := ParseFrom(fields, i, number).value;
            && (forall k | 0 <= k < |entries| :: Holds(entries[k], fields, i + 3 * k, number))
            && (if truncated then IsCut(fields, i + 3 * |entries|) else i + 3 * |entries| + 1 >= |fields|)
    decreases |fields| - i
  {
    if i + 1 < |fields| && !IsCut(fields, i) {
      ParsedInOrder(fields, i + 3, number);
    }
  }
}
