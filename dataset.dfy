/**
 * The dataset writer of `SynThaiger`: `init_save` opens the ground-truth manifest
 * `gt.txt` for writing (truncating it), each `save` stores image `idx` under the
 * key `images/<idx // 1000>/<idx>.jpg` and writes one line `<key>\t<label>\n` to
 * the manifest, and `end_save` closes it.
 *
 * Keys and lines are pure string functions with their inverses; the open manifest
 * is a `Manifest` object whose `lines` grow by one per write.
 */
module Dataset {
  import opened Wrappers
  import opened Text
  import Sample

  /** Number of images per shard directory. */
  const ShardSize: int := 1000

  /** `idx // 1000`: Python's floor division, which Dafny's `/` equals for a positive divisor. */
  function Shard(idx: int): (k: int)
    ensures ShardSize * k <= idx < ShardSize * k + ShardSize
  {
    idx / ShardSize
  }

  /** An index lies in block `k` of 1000 exactly when its shard is `k`. */
  lemma ShardOfBlock(idx: int, k: int)
    ensures Shard(idx) == k <==> ShardSize * k <= idx < ShardSize * k + ShardSize
  {
  }

  /** The shard never decreases as the index grows. */
  lemma ShardMonotone(a: int, b: int)
    requires a <= b
    ensures Shard(a) <= Shard(b)
  {
  }

  /** Every character a numeral written by `IntToString` holds is a digit or a minus sign. */
  lemma NumeralHasNoSeparator(i: int, c: char)
    requires !IsDigit(c) && c != '-'
    ensures c !in IntToString(i)
  {
  }

  /**
   * The relative image key: `os.path.join("images", str(idx // 1000), f"{idx}.jpg")`
   * with `/` as separator. It holds neither a tab nor a newline, so it never breaks a
   * manifest line.
   */
  function ImageKey(idx: int): (k: string)
    ensures |k| > 11 && k[..7] == "images/" && k[|k| - 4..] == ".jpg"
    ensures '\t' !in k && '\n' !in k
  {
    NumeralHasNoSeparator(Shard(idx), '\t');
    NumeralHasNoSeparator(Shard(idx), '\n');
    NumeralHasNoSeparator(idx, '\t');
    NumeralHasNoSeparator(idx, '\n');
    "images/" + IntToString(Shard(idx)) + "/" + IntToString(idx) + ".jpg"
  }

  /** Recovers the index from a key, and only from a key whose shard directory matches it. */
  function ParseImageKey(key: string): Option<int> {
    if |key| < 7 || key[..7] != "images/" then None
    else
      var rest := key[7..];
      match Find(rest, '/')
      case None => None
      case Some(i) =>
        var name := rest[i + 1..];
        if |name| < 4 || name[|name| - 4..] != ".jpg" then None
        else match ParseInt(name[..|name| - 4])
          case None => None
          case Some(idx) => if ParseInt(rest[..i]) == Some(Shard(idx)) then Some(idx) else None
  }

  /** A key whose shard directory has no `/` splits at its first `/` after `images/`. */
  lemma KeyDirectory(shard: string, name: string)
    requires '/' !in shard
    ensures var key := "images/" + shard + "/" + name;
      && |key| >= 7 && key[..7] == "images/"
      && Find(key[7..], '/') == Some(|shard|)
      && key[7..][..|shard|] == shard && key[7..][|shard| + 1..] == name
  {
    var key := "images/" + shard + "/" + name;
    var rest := key[7..];
    assert rest == shard + ['/'] + name;
    FindAfterPrefix(shard, '/', name);
    assert rest[..|shard|] == shard;
    assert rest[|shard| + 1..] == name;
  }

  /** The file name `<num>.jpg` gives back `num` once its extension is cut off. */
  lemma FileName(num: string)
    ensures var name := num + ".jpg";
      |name| >= 4 && name[|name| - 4..] == ".jpg" && name[..|name| - 4] == num
  {
    var name := num + ".jpg";
    assert name[|name| - 4..] == ".jpg";
    assert name[..|name| - 4] == num;
  }

  lemma ParseImageKeyRoundTrip(idx: int)
    ensures ParseImageKey(ImageKey(idx)) == Some(idx)
  {
    var shard, num := IntToString(Shard(idx)), IntToString(idx);
    assert ImageKey(idx) == "images/" + shard + "/" + (num + ".jpg");
    NumeralHasNoSeparator(Shard(idx), '/');
    KeyDirectory(shard, num + ".jpg");
    FileName(num);
    ParseIntToString(idx);
    ParseIntToString(Shard(idx));
  }

  /** Distinct indices get distinct keys, so no image overwrites another. */
  lemma ImageKeyInjective(a: int, b: int)
    ensures ImageKey(a) == ImageKey(b) <==> a == b
  {
    ParseImageKeyRoundTrip(a);
    ParseImageKeyRoundTrip(b);
  }

  /** One manifest record: an image key and its label. */
  datatype Entry = Entry(key: string, text: string)

  /** The line `save` writes: `f"{image_key}\t{label}\n"`. */
  function ManifestLine(e: Entry): string {
    e.key + "\t" + e.text + "\n"
  }

  /** A manifest line without its newline, split at its first tab; `None` when it has no tab. */
  function ParseLine(line: string): Option<Entry> {
    match Find(line, '\t')
    case None => None
    case Some(i) => Some(Entry(line[..i], line[i + 1..]))
  }

  /** Reads a manifest's text line by line, splitting each line at its first tab. */
  function ReadManifest(content: string): seq<Option<Entry>>
    decreases |content|
  {
    if content == [] then []
    else match Find(content, '\n')
      case None => [ParseLine(content)]
      case Some(i) => [ParseLine(content[..i])] + ReadManifest(content[i + 1..])
  }

  /** An entry survives the manifest's line format when its key has no tab or newline and its label no newline. */
  predicate Recordable(e: Entry) {
    '\t' !in e.key && '\n' !in e.key && '\n' !in e.text
  }

  /** A written line reads back as its entry, whatever follows it. */
  lemma ReadManifestLine(e: Entry, rest: string)
    requires Recordable(e)
    ensures ReadManifest(ManifestLine(e) + rest) == [Some(e)] + ReadManifest(rest)
  {
    var line := e.key + "\t" + e.text;
    var content := ManifestLine(e) + rest;
    assert content == line + ['\n'] + rest;
    FindAfterPrefix(line, '\n', rest);
    assert content[..|line|] == line;
    assert content[|line| + 1..] == rest;
    assert line == e.key + ['\t'] + e.text;
    FindAfterPrefix(e.key, '\t', e.text);
    assert line[..|e.key|] == e.key;
    assert line[|e.key| + 1..] == e.text;
  }

  /** The lines of a manifest that recorded `es`, in order. */
  function ManifestLines(es: seq<Entry>): (lines: seq<string>)
    ensures |lines| == |es|
    ensures forall i :: 0 <= i < |es| ==> lines[i] == ManifestLine(es[i])
  {
    if es == [] then [] else [ManifestLine(es[0])] + ManifestLines(es[1..])
  }

  /** What reading back a manifest of `es` should give: each entry, in order. */
  function Recorded(es: seq<Entry>): seq<Option<Entry>> {
    seq(|es|, i requires 0 <= i < |es| => Some(es[i]))
  }

  /** A manifest of recordable entries reads back as exactly those entries, in order. */
  lemma {:induction false} ReadManifestBack(es: seq<Entry>)
    requires forall i :: 0 <= i < |es| ==> Recordable(es[i])
    ensures ReadManifest(Concat(ManifestLines(es))) == Recorded(es)
  {
    if es != [] {
      var rest := Concat(ManifestLines(es[1..]));
      assert Concat(ManifestLines(es)) == ManifestLine(es[0]) + rest;
      ReadManifestLine(es[0], rest);
      ReadManifestBack(es[1..]);
      assert Recorded(es) == [Some(es[0])] + Recorded(es[1..]);
    }
  }

  /**
   * A label holding a newline is read back as two records: the first line keeps the
   * label's text up to the newline, the rest becomes a line of its own, which has no
   * tab and so no key. The format does not guard against it.
   */
  lemma NewlineInLabelSplitsRecord(key: string, before: string, after: string)
    requires Recordable(Entry(key, before))
    requires '\n' !in after && '\t' !in after
    ensures ReadManifest(ManifestLine(Entry(key, before + "\n" + after))) ==
      [Some(Entry(key, before)), None]
  {
    var tail := after + "\n";
    assert ManifestLine(Entry(key, before + "\n" + after)) == ManifestLine(Entry(key, before)) + tail;
    ReadManifestLine(Entry(key, before), tail);
    assert tail == after + ['\n'] + [];
    FindAfterPrefix(after, '\n', []);
    assert tail[..|after|] == after;
    assert tail[|after| + 1..] == [];
  }

  /** The manifest entry `save(root, data, idx)` records. */
  function SavedEntry(idx: int, text: string): Entry {
    Entry(ImageKey(idx), text)
  }

  /** Saving a sample whose label has no newline records an entry that reads back as its key and label. */
  lemma SavedEntryReadsBack(idx: int, text: string, rest: string)
    requires '\n' !in text
    ensures ReadManifest(ManifestLine(SavedEntry(idx, text)) + rest) ==
      [Some(Entry(ImageKey(idx), text))] + ReadManifest(rest)
  {
    ReadManifestLine(SavedEntry(idx, text), rest);
  }

  /** The manifest after saving `saves` (index, label) in order since `init_save`. */
  function SavedLines(saves: seq<(int, string)>): (lines: seq<string>)
    ensures |lines| == |saves|
    ensures forall i :: 0 <= i < |saves| ==> lines[i] == ManifestLine(SavedEntry(saves[i].0, saves[i].1))
  {
    ManifestLines(SavedEntries(saves))
  }

  /** The entries that `saves` (index, label) record, in order. */
  function SavedEntries(saves: seq<(int, string)>): seq<Entry> {
    seq(|saves|, i requires 0 <= i < |saves| => SavedEntry(saves[i].0, saves[i].1))
  }

  /** After any run of saves with newline-free labels, reading the manifest gives back each key and label, in call order. */
  lemma SavedManifestReadsBack(saves: seq<(int, string)>)
    requires forall i :: 0 <= i < |saves| ==> '\n' !in saves[i].1
    ensures ReadManifest(Concat(SavedLines(saves))) == Recorded(SavedEntries(saves))
  {
    ReadManifestBack(SavedEntries(saves));
  }

  /** Indices 0 to 1999 fall into exactly two shards, 0 and 1, split at 1000. */
  lemma TwoThousandIndicesTwoShards(idx: int)
    requires 0 <= idx < 2000
    ensures Shard(idx) == (if idx < 1000 then 0 else 1)
  {
  }

  /** Index 1500 is stored under shard 1. */
  lemma KeyOfIndex1500()
    ensures ImageKey(1500) == "images/1/1500.jpg"
  {
  }

  /** The manifest line for label "hello" at index 1500. */
  lemma HelloLine()
    ensures ManifestLine(SavedEntry(1500, "hello")) == "images/1/1500.jpg\thello\n"
  {
    KeyOfIndex1500();
    assert "images/1/1500.jpg" + "\t" + "hello" + "\n" == "images/1/1500.jpg\thello\n";
  }

  /** Why `save` failed: `gt_file` was never opened (AttributeError) or is closed (ValueError). */
  datatype SaveError = NoManifest | ClosedManifest

  datatype Outcome = Done | Failed(error: SaveError)

  /** The open text file `gt.txt`: the lines written so far and whether the handle is open. */
  class Manifest {
    var lines: seq<string>
    var isOpen: bool

    /** The file's text. */
    function Content(): string
      reads this
    {
      Concat(lines)
    }

    /** `open(gt_path, "w")`: the file starts empty, whatever it held before. */
    constructor Open()
      ensures lines == [] && isOpen
      ensures Content() == ""
    {
      lines := [];
      isOpen := true;
    }

    /** `write(s)`: appends `s` to an open file; a closed file refuses the write and keeps its text. */
    method Write(s: string) returns (r: Outcome)
      modifies this
      ensures isOpen == old(isOpen)
      ensures old(isOpen) ==> r == Done && lines == old(lines) + [s] && Content() == old(Content()) + s
      ensures !old(isOpen) ==> r == Failed(ClosedManifest) && lines == old(lines)
    {
      if isOpen {
        ConcatAppend(lines, s);
        lines := lines + [s];
        r := Done;
      } else {
        r := Failed(ClosedManifest);
      }
    }

    /** `close()`: closing an already closed file is allowed and does nothing. */
    method Close()
      modifies this
      ensures !isOpen && lines == old(lines)
    {
      isOpen := false;
    }
  }

  /**
   * The saving side of the template. `gtFile` is the attribute `gt_file`, absent
   * (`null`) until `init_save`; `saved` lists the (index, label) pairs saved since
   * the last `init_save`.
   */
  class SynThaiger {
    var gtFile: Manifest?
    ghost var saved: seq<(int, string)>

    /** The manifest holds one line per save since `init_save`, in call order. */
    ghost predicate Valid()
      reads this, gtFile
    {
      gtFile != null ==> gtFile.lines == SavedLines(saved)
    }

    /** `__init__`: the components are built by the library; no manifest is open yet. */
    constructor ()
      ensures Valid() && gtFile == null && saved == []
    {
      gtFile := null;
      saved := [];
    }

    /** `init_save(root)`: a fresh, empty, open manifest. */
    method InitSave()
      modifies this
      ensures Valid() && fresh(gtFile)
      ensures gtFile != null && gtFile.isOpen && gtFile.lines == [] && saved == []
    {
      gtFile := new Manifest.Open();
      saved := [];
    }

    /**
     * `save(root, data, idx)`: on an open manifest, appends the line for `idx` and the
     * sample's label and leaves every earlier line as it was; otherwise fails as the
     * source does and changes nothing.
     */
    method Save<F, C>(data: Sample.Sample<F, C>, idx: int) returns (r: Outcome)
      requires Valid()
      modifies this, gtFile
      ensures Valid() && gtFile == old(gtFile)
      ensures old(gtFile) == null ==> r == Failed(NoManifest) && saved == old(saved)
      ensures old(gtFile) != null && old(gtFile.isOpen) ==>
        r == Done
        && saved == old(saved) + [(idx, data.labelText)]
        && gtFile.lines == old(gtFile.lines) + [ManifestLine(SavedEntry(idx, data.labelText))]
        && gtFile.isOpen
      ensures old(gtFile) != null && !old(gtFile.isOpen) ==>
        r == Failed(ClosedManifest) && saved == old(saved) && gtFile.lines == old(gtFile.lines) && !gtFile.isOpen
    {
      if gtFile == null {
        r := Failed(NoManifest);
      } else {
        var line := ManifestLine(SavedEntry(idx, data.labelText));
        r := gtFile.Write(line);
        if r == Done {
          saved := saved + [(idx, data.labelText)];
          assert SavedLines(saved) == SavedLines(old(saved)) + [line];
        }
      }
    }

    /** `end_save(root)`: closes the manifest, keeping its lines; fails when none was opened. */
    method EndSave() returns (r: Outcome)
      requires Valid()
      modifies gtFile
      ensures Valid()
      ensures old(gtFile) == null ==> r == Failed(NoManifest)
      ensures gtFile != null ==> r == Done && !gtFile.isOpen && gtFile.lines == old(gtFile.lines)
    {
      if gtFile == null {
        r := Failed(NoManifest);
      } else {
        gtFile.Close();
        r := Done;
      }
    }
  }

  /**
   * A one-fragment sample whose corpus draw is "hello", saved as index 1500 on a
   * fresh manifest: the label is the text and the manifest holds the single line
   * `images/1/1500.jpg<TAB>hello<NEWLINE>`.
   */
  method HelloAt1500() returns (lines: seq<string>)
    ensures lines == ["images/1/1500.jpg\thello\n"]
  {
    var d := Sample.Draws(1, ["hello"], "font", [0], 255, false, [false, false, false, false]);
    var arrange := (layers: seq<Sample.TextLayer<string, int>>) => Sample.Frame(Sample.Size(0, 0), Sample.Point(0, 0));
    var sample := Sample.Generate(d, arrange);
    Sample.GenerateLabel(d, arrange);
    HelloLine();
    var writer := new SynThaiger();
    writer.InitSave();
    var r := writer.Save(sample, 1500);
    lines := writer.gtFile.lines;
  }
}
