# synThai sample template, modelled in Dafny

This project models the core of `template.py`, the synthtiger template `SynThaiger`
that generates synthetic Thai text-line images and writes them out as a dataset.
There are two parts:

- **Sample generation** (`SynThaiger.generate`, module `Sample` in `sample.dfy`). It draws
  a count of 0 to 3 fragments. It draws that many corpus texts and that many foreground
  colours, plus one shared font. It pairs texts and colours with `zip` into text layers,
  groups them, and lets the flow layout arrange the group. A background rectangle copies
  the group's size and top-left corner. That rectangle may be textured. The group and the
  rectangle are flattened together, and the four switched effects run in order: noise,
  blur, resampling, median blur. The label is the texts joined by single spaces.
- **Dataset writing** (`init_save`, `save`, `end_save`, module `Dataset` in `dataset.dfy`).
  `init_save` opens `gt.txt` in `"w"` mode, so the manifest starts empty. `save` computes
  the shard `idx // 1000` and the key `images/<shard>/<idx>.jpg`. It then writes one
  manifest line `<key>\t<label>\n`. `end_save` closes the manifest.

Module `Text` (`text.dfy`) holds the string operations the template computes:
- Python's `str` of an int (template.py:69-70);
- `" ".join` (template.py:47);
- the concatenation that successive file writes build (template.py:77).

The template itself never calls the readers in the model. They exist only to state
round-trip properties:
- `Text.ParseNat` and `Text.ParseInt`;
- `Text.Find`, which mirrors `str.find`;
- `Text.Split`, which mirrors `str.split` with a one-character separator;
- `Dataset.ParseImageKey`, `Dataset.ParseLine` and `Dataset.ReadManifest`.

Every random draw in `generate` is a parameter (`Sample.Draws`). This covers the
`randint(0, 4)` at template.py:32, the corpus, font and colour samples, the texture
switch and the four effect switches. The JPEG quality draw at template.py:75 is not a
parameter; it is left out together with the image file. Fonts
and colours are opaque type parameters. The layout engine is a function parameter
`arrange` that reports the frame (size and top-left) it leaves on the group. Rendering,
compositing and the effects stay symbolic: an `Image` is either the flattened group over
its background, or an effect applied to an image. So the proofs are about which layers go
in, how the background is aligned, and which effects run in which order. They say nothing
about pixels.

The manifest file is a `Dataset.Manifest` object. It holds the `lines` written so far and
an `isOpen` flag. Its text is `Concat(lines)`. `Dataset.SynThaiger` holds the attribute
`gt_file` as `gtFile` (null until `init_save`). It also holds a ghost list of the
(index, label) pairs saved since then. Its invariant `Valid()` ties the manifest's lines
to that list.

Indices are modelled as `int`, as Python allows. `idx // 1000` is floor division, and
Dafny's `/` gives the same result for the positive divisor 1000. `str` of a negative
index carries a minus sign.

`init_save` opens `gt.txt` with `"w"` (template.py:60), which truncates, so the manifest
is empty after `init_save`.

## Model

| member | source | states |
|---|---|---|
| `Sample.Generate` | template.py:31-55 | one text layer per drawn fragment, the i-th built from `texts[i]`, `colors[i]` and the shared font; the group's frame is what the layout reports; the background has the group's size and top-left, the drawn background colour and the texture decision; the effects applied are exactly the switched-on ones of the chain, in order; the label is the texts joined by `" "`; the font is passed through |
| `Sample.Zip` | template.py:37 | Python `zip`: as many pairs as the shorter input, the i-th pairing the i-th elements |
| `Sample.GenerateLabel` | template.py:32-47 | the label is empty for no fragment, equals the text for one, has length total text length plus one space between each pair, and splits at `" "` back into the drawn texts when none holds a space |
| `Sample.ApplyChainTrace` | template.py:18-26 | the switched chain adds exactly its enabled effects, in chain order, and leaves the composite underneath unchanged |
| `Sample.ApplyChainAllOff` | template.py:18-26 | with every switch off the chain returns its input image unchanged |
| `Sample.EnabledAllOn` | template.py:18-26 | with every switch on every effect of the chain is enabled, in order |
| `Sample.GenerateWithoutEffects` | template.py:40-45 | with all post-processing switches off the generated image is exactly the flattened composite of the text group over its aligned background |
| `Sample.GenerateWithAllEffects` | template.py:45 | with all switches on, noise, blur, resampling and median blur are each applied once, in that order |
| `Text.NatToString` | template.py:69 | the decimal numeral is non-empty, all digits, and has no leading zero unless the value is 0 |
| `Text.ParseNatToString` | template.py:69 | reading the numeral back gives the number |
| `Text.IntToString` | template.py:70 | `str` of an int is non-empty and holds only digits and a minus sign |
| `Text.ParseIntToString` | template.py:70 | reading `str(i)` back gives `i`, for negative values too |
| `Text.IntToStringInjective` | template.py:69-70 | two ints have the same `str` exactly when they are equal |
| `Text.Split` | template.py:47 | the inverse of the join at this line, used for the token count: at least one piece, and no piece holds the separator |
| `Text.SplitJoin` | template.py:47 | splitting a join on its separator gives back the parts when no part holds the separator |
| `Text.JoinLength` | template.py:47 | the joined string is the parts' total length plus one separator between each pair |
| `Text.ConcatAppend` | template.py:77 | writing a string to the file extends its text by exactly that string |
| `Dataset.Shard` | template.py:69 | the shard k of an index satisfies `1000*k <= idx < 1000*k + 1000` (floor division) |
| `Dataset.ShardOfBlock` | template.py:69 | an index has shard k exactly when it lies in the k-th block of 1000, so indices of one block share a shard |
| `Dataset.ShardMonotone` | template.py:69 | the shard never decreases as the index grows |
| `Dataset.TwoThousandIndicesTwoShards` | template.py:69 | indices 0..1999 have shard 0 below 1000 and shard 1 from 1000 on |
| `Dataset.ImageKey` | template.py:69-70 | the key starts with `images/`, ends with `.jpg`, and holds no tab and no newline |
| `Dataset.ParseImageKeyRoundTrip` | template.py:69-70 | the index can be read back from its key, and the key's directory is that index's shard |
| `Dataset.ImageKeyInjective` | template.py:70 | two indices have the same key exactly when they are equal, so no image overwrites another |
| `Dataset.KeyOfIndex1500` | template.py:69-70 | index 1500 has key `images/1/1500.jpg` |
| `Dataset.ReadManifestLine` | template.py:77 | a line `<key>\t<label>\n` whose key has no tab or newline and whose label has no newline reads back, at its first tab, as that key and label, whatever follows it |
| `Dataset.ManifestLines` | template.py:77 | one line per entry, the i-th being the i-th entry's line |
| `Dataset.ReadManifestBack` | template.py:77 | a manifest of such entries reads back as exactly those entries, in order |
| `Dataset.NewlineInLabelSplitsRecord` | template.py:77 | a label with a newline is read back as two records, the second without a key: the line format does not guard against it |
| `Dataset.SavedEntryReadsBack` | template.py:70-77 | the line `save` writes for an index and a newline-free label reads back as that image key and label; a tab inside the label does not disturb this |
| `Dataset.SavedLines` | template.py:77 | after N saves the manifest has N lines, the i-th being the line for the i-th save's index and label |
| `Dataset.SavedManifestReadsBack` | template.py:60-77 | after any run of saves with newline-free labels, the manifest reads back as each save's key and label, in call order |
| `Dataset.Manifest.Open` | template.py:60 | the file opened with `"w"` starts empty and open |
| `Dataset.Manifest.Write` | template.py:77 | an open file gets the string appended to its lines and its text; a closed one fails and keeps its lines |
| `Dataset.Manifest.Close` | template.py:80 | the file is closed with its lines kept |
| `Dataset.SynThaiger.constructor` | template.py:9-29 | a new template has no manifest yet |
| `Dataset.SynThaiger.InitSave` | template.py:57-60 | a fresh, open, empty manifest, and nothing counted as saved |
| `Dataset.SynThaiger.Save` | template.py:62-77 | on an open manifest, appends exactly the line for the index and the sample's label, keeps every earlier line, and records the save; before `init_save` it fails with a missing manifest, after `end_save` with a closed one, changing nothing |
| `Dataset.SynThaiger.EndSave` | template.py:79-80 | closes the manifest and keeps its lines; fails when no manifest was opened |
| `Dataset.HelloLine` | template.py:69-77 | the manifest line for label "hello" at index 1500 is `images/1/1500.jpg\thello\n` |
| `Dataset.HelloAt1500` | template.py:31-77 | a one-fragment sample with text "hello", saved as index 1500 on a fresh manifest, leaves exactly the line `images/1/1500.jpg\thello\n` |

## Left out

- The synthtiger components are opaque and are not part of this model: `BaseCorpus`, `BaseFont`, `RGB`, `FlowLayout`, `Switch`, `Iterator`, `BaseTexture`, and the `layers` classes (template.py:13-29). Their draws and results are parameters.
- Glyph rendering, the positions the flow layout gives to individual layers, and alpha compositing (template.py:37-43) are not modelled. The model keeps only the layers, the group's frame and the background's alignment with it.
- The texture blending and the four effects are floating-point image numerics inside the library. The model records only whether each one is applied, and in which order.
- The numpy draw of the fragment count (template.py:32) becomes a parameter. The model does not capture its distribution, such as a uniform count.
- The numpy draw of the JPEG quality (template.py:75) is left out with the image file.
- `Dataset.SynThaiger.Save`: does not model the image file. That means it leaves out `image.shape` (which raises for a raster that is not three-dimensional), the channel slice `[..., :3]`, the `uint8` cast, the PIL JPEG encoding at a quality drawn from [30, 95), and the path `os.path.join(root, image_key)`. These are pixel arrays, a foreign encoder and the filesystem. It models only the manifest line written after the image.
- `os.makedirs` and the creation of `gt.txt` under `root` (template.py:58-59, 73) are filesystem effects. The `root` argument therefore does not appear in the model.
- The model follows POSIX systems. It uses `/` as the path separator, as `os.path.join` does there. It writes each `"\n"` of a manifest line as a single newline character. A text-mode `open(..., "w")` writes each `"\n"` as `os.linesep`, so `ManifestLine` matches the file's bytes only where `os.linesep` is `"\n"`.
- Text is modelled as sequences of characters. UTF-8 encoding and the file's write buffering (text reaching disk at flush or close) are not modelled.
- A second `init_save` without an `end_save`: Python leaves the earlier file object open until it is collected. The model simply replaces the reference.
- The `font` entry of the result is an opaque type parameter, passed through untouched.
