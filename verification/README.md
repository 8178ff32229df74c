# VOC to YOLO label conversion, modelled in Dafny

This project models the conversion script of a PASCAL VOC dataset configuration.
The script turns per-image VOC XML annotations, which give absolute-pixel boxes,
into YOLO label files. A YOLO label file has one line per object of a known class: a class id, then
the box centre and size as fractions of the image size.

The model has five modules, one file each:

- `geometry.dfy` (`Geometry`): the box normalisation, its inverse, and the bounds it keeps.
- `class_map.dfy` (`ClassMap`): the eleven-entry class table and the name-to-id mapping built by inverting it.
- `convert.dfy` (`Convert`): one parsed annotation becomes the labels of its label file. Objects of unknown class are skipped. A zero image side raises a division error once an object of a known class is met.
- `listing.dfy` (`Listing`): which directory entries count as annotations (`.xml`), and the label-file name `stem.txt` derived from each, following POSIX `os.path.splitext`.
- `dataset.dfy` (`Dataset`): the loop over the annotation directory's listing. It collects the written label files and stops at the first uncaught exception.

Coordinates are Dafny `real`s. The script adds, subtracts and divides in IEEE
doubles; the model treats each operation as exact, so the formulas, bounds and
round trips hold exactly here instead of within rounding.

The script reads no split files, copies no images, and prints no message for
unknown classes or missing files. It lists the `Annotations` directory, converts
every `.xml` entry into `labels/<stem>.txt`, and drops objects of unknown class
silently. Any exception ends the whole run, including a division by zero on a
zero-sized image.

## Model

| member | source | states |
|---|---|---|
| Geometry.Normalize | code.py:52-55 | Scaling the normalised values back by the image size gives the box's pixel centre `(xmin+xmax)/2`, `(ymin+ymax)/2` and pixel extent `xmax-xmin`, `ymax-ymin`. The only requirement is a non-zero width and height, because Python raises ZeroDivisionError otherwise. |
| Geometry.DenormalizeNormalize | code.py:52-55 | Converting back with `(x_center ∓ box_width/2)*w` and `(y_center ∓ box_height/2)*h` recovers `xmin`, `xmax`, `ymin`, `ymax` exactly. |
| Geometry.NormalizeDenormalize | code.py:52-55 | The other direction of the round trip: normalisation is a bijection for every non-zero image size. |
| Geometry.NormalizeInUnitRange | code.py:52-55 | If `0 <= xmin <= xmax <= w` and `0 <= ymin <= ymax <= h` with a positive size, all four normalised values lie in [0, 1]. |
| Geometry.InsideImageIffEdgesInUnitSquare | code.py:52-55 | There is no clamping. The normalised box edges are ordered and inside the unit square exactly when the pixel box is inside the image, so a box that overhangs the image produces edges outside the unit square. |
| Geometry.WorkedExample | code.py:52-55 | Box (0, 10, 0, 20) on a 100 x 200 image gives (0.05, 0.05, 0.1, 0.1). |
| ClassMap.NamesIdsAreIndices | code.py:9-19 | The table's ids are contiguous: the i-th entry has id i, for 0..10. |
| ClassMap.NamesDistinct | code.py:9-19 | The eleven class names are pairwise different. |
| ClassMap.ClassMapping | code.py:67 | The mapping's keys are exactly the table's names. Each name maps to the id of the last table entry with that name, as the dictionary comprehension overwrites earlier keys. |
| ClassMap.ClassMappingInvertsDistinct | code.py:67 | With distinct names the mapping inverts the table: `mapping[name(i)] == id(i)`, with one entry per table entry. |
| ClassMap.ClassMappingIdsFromTable | code.py:67 | Every name of the table is a key of the mapping, and its `(id, name)` pair occurs in the table. |
| ClassMap.NamesMappingIsInverse | code.py:67 | For this dataset, `class_mapping[names[i]] == i` for every id 0..10, and the mapping has 11 entries. |
| ClassMap.NamesMappingIdsInRange | code.py:67 | Every id the dataset's mapping hands out is in 0..10. |
| Convert.KnownIndices | code.py:39-42 | Gives the positions of the objects whose class name is in the mapping. The list is strictly increasing, and a position is in it exactly when its object's name is known. |
| Convert.ConvertObjects | code.py:39-57 | There is exactly one label per known object, in document order, with id `class_mapping[name]` and the normalised box. The conversion fails with a division error exactly when a known object meets a zero width or height. |
| Convert.ConvertAnnotation | code.py:38-57 | A document with no known object still converts to an empty label file, not a missing one. Division fails only for a zero image side and at least one known object. There are never more labels than objects. |
| Convert.ConvertObjectsAppend | code.py:39-57 | The object loop distributes over concatenation: the labels of `xs + ys` are those of `xs` followed by those of `ys`. |
| Convert.UnknownObjectSkipped | code.py:41-42 | Inserting an object of unknown class anywhere leaves the result unchanged. It adds nothing and does not stop later objects. |
| Convert.LabelsInUnitRange | code.py:44-57 | With a positive image size and every known object inside the image, conversion succeeds. Every label then carries a mapped id and four values in [0, 1]. |
| Listing.Stem | code.py:73 | The `splitext` stem of an `.xml` name is the name less `.xml`. The exception is a base name made only of dots before the final dot, which has no extension and is its own stem. |
| Listing.StemRoundTrip | code.py:71-73 | A stem whose base name is not all dots is named by `stem.xml` and produces label `stem.txt`. |
| Listing.LabelNameInjective | code.py:73 | Two `.xml` names with extensions and the same label name are the same name. |
| Listing.DotOnlyNameKeepsSuffix | code.py:73 | `..xml` ends in `.xml` but has no extension, so it is converted into `..xml.txt`. |
| Dataset.Run | code.py:70-74 | Every label file written is named by some `.xml` entry of the listing. The run completes exactly when no entry raises. |
| Dataset.AbortedRunHasFirstFailure | code.py:70-74 | A run that did not complete has a first entry whose conversion raises. |
| Dataset.RunWritesEveryAnnotation | code.py:70-74 | A completed run writes a label file for every `.xml` entry, including one with no known object. |
| Dataset.RunFileContents | code.py:70-74 | In a completed run, an entry's label file holds exactly its document's labels, unless a later entry writes the same label name. |
| Dataset.RunStopsAtFirstFailure | code.py:70-74 | Entries after the first raising entry are never converted: the run over the whole listing equals the run that ends with that entry. |
| Dataset.RunFailureLeavesBehind | code.py:30-38 | The run ends at its first raising entry, as unparsable exactly when the parser rejected the document and as a division error otherwise. A division failure leaves that entry's label file present and empty, because it was opened at line 38 before the loop. A parse failure at line 30 leaves no file for it. No other file changes. |
| Dataset.RunIgnoresOtherEntries | code.py:71 | The run over a listing equals the run over its `.xml` entries alone. |
| Dataset.RunOneFilePerAnnotation | code.py:70-74 | For a listing without repeats whose `.xml` names all have extensions, a completed run writes exactly one `stem.txt` per `.xml` entry, holding that document's labels. |
| Dataset.RunLabelIdsFromMapping | code.py:44 | Every label written carries an id that is a value of the mapping. |
| Dataset.ConvertDataset | code.py:67-74 | The script's run with this dataset's table writes only class ids 0..10. |

## Left out

- XML parsing (`ET.parse`, `find`, `findall`) is not modelled. A parsed document is an `Annotation` datatype, and the parser's reading of the directory is a map from entry name to `Annotation`. An `.xml` entry missing from that map stands for a document the parser rejects. That includes a directory or unreadable file named `*.xml`, and a missing `<size>` element, which raises before the label file is opened.
- Errors inside the object loop other than division are not modelled. These are a missing `<name>` or `<bndbox>` and a coordinate that `float` cannot read, each of which would leave a partly written label file and end the run. `Obj` assumes these reads succeed.
- The text-to-number conversions `int(...)` and `float(...)` are not modelled, and neither is the `:.6f` rendering of each line. Sizes are given as integers, coordinates as reals, and labels as records rather than text.
- Geometry.Normalize: computes with exact reals instead of IEEE doubles. It therefore ignores rounding, overflow to infinity and NaN coordinates, which the script would pass through.
- Filesystem effects are not modelled: `open`/`write`, `mkdir`, `Path` joins and the order of `os.listdir`. The listing is a parameter, the output is a map from label-file name to labels, and files already in `labels/` before the run are not tracked.
- The `tqdm` progress bar and the YAML keys `path`, `train`, `val` and `test` are not modelled. The split files are declared but never read by the script.
- Re-running the conversion is deterministic by construction, because every operation is a pure function. No separate idempotence lemma is stated.
