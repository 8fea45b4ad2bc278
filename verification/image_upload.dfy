/**
 * The image picker component (src/components/listing/ImageUpload.tsx):
 * dropped files are appended up to `maxFiles`, a file can be removed by
 * position, and the drop zone is switched off once the limit is reached.
 * Every change sets the component's list and reports that same list to
 * its parent.
 */
module ImageUpload {
  import opened ListingForm

  const MaxFilesDefault: nat := 10

  /** The component's new list, and the list passed to `onChange`. */
  datatype Change = Change(files: seq<File>, reported: seq<File>)

  /** `[...files, ...acceptedFiles].slice(0, maxFiles)`. */
  function OnDrop(files: seq<File>, accepted: seq<File>, maxFiles: nat): (r: seq<File>)
    ensures |r| == if |files| + |accepted| <= maxFiles then |files| + |accepted| else maxFiles
    ensures forall i :: 0 <= i < |r| ==> r[i] == (files + accepted)[i]
    ensures |files| <= maxFiles ==> r[..|files|] == files
    ensures |files| + |accepted| <= maxFiles ==> r == files + accepted
  {
    var all := files + accepted;
    if |all| <= maxFiles then all else all[..maxFiles]
  }

  /** `newFiles.splice(index, 1)`: an index past the end removes nothing. */
  function RemoveAt(files: seq<File>, index: nat): (r: seq<File>)
    ensures index < |files| ==> |r| == |files| - 1
    ensures index >= |files| ==> r == files
    ensures forall k :: 0 <= k < index && k < |r| ==> r[k] == files[k]
    ensures index < |files| ==> forall k :: index <= k < |r| ==> r[k] == files[k + 1]
    ensures index < |files| ==> multiset(r) + multiset{files[index]} == multiset(files)
  {
    if index < |files| then
      assert files == files[..index] + [files[index]] + files[index + 1..];
      files[..index] + files[index + 1..]
    else
      files
  }

  /** Dropping files: the state and the report are the same truncated list. */
  function Drop(files: seq<File>, accepted: seq<File>, maxFiles: nat): (c: Change)
    ensures c.files == c.reported && |c.files| <= maxFiles + |files|
    ensures |files| <= maxFiles ==> |files| <= |c.files| <= maxFiles
    ensures |files| <= maxFiles ==> c.files[..|files|] == files
  {
    var r := OnDrop(files, accepted, maxFiles);
    Change(r, r)
  }

  /** Removing a file: the state and the report are the same shortened list. */
  function RemoveFile(files: seq<File>, index: nat): (c: Change)
    ensures c.files == c.reported
    ensures index < |files| ==> |c.files| == |files| - 1
    ensures index < |files| ==> multiset(c.files) + multiset{files[index]} == multiset(files)
  {
    var r := RemoveAt(files, index);
    Change(r, r)
  }

  /** `disabled: files.length >= maxFiles`. */
  predicate DropzoneDisabled(files: seq<File>, maxFiles: nat) {
    |files| >= maxFiles
  }

  /** `maxFiles: maxFiles - files.length`, the most files one drop may bring. */
  function DropLimit(files: seq<File>, maxFiles: nat): (n: int)
    ensures n > 0 <==> !DropzoneDisabled(files, maxFiles)
    ensures n + |files| == maxFiles
  {
    maxFiles - |files|
  }

  /** A drop within the drop zone's limit keeps every dropped file. */
  lemma DropWithinLimitKeepsAll(files: seq<File>, accepted: seq<File>, maxFiles: nat)
    requires |accepted| <= DropLimit(files, maxFiles)
    ensures Drop(files, accepted, maxFiles).files == files + accepted
  {
  }

  /** Removing the file just dropped restores the list as it was before the drop. */
  lemma {:induction false} RemoveUndoesDrop(files: seq<File>, f: File, maxFiles: nat)
    requires !DropzoneDisabled(files, maxFiles)
    ensures RemoveFile(Drop(files, [f], maxFiles).files, |files|).files == files
  {
    var d := OnDrop(files, [f], maxFiles);
    assert d == files + [f];
    assert d[..|files|] == files;
  }

  /** The list never grows past the limit once it is within it. */
  lemma {:induction false} DropStaysWithinLimit(files: seq<File>, drops: seq<seq<File>>, maxFiles: nat)
    requires |files| <= maxFiles
    ensures |DropAll(files, drops, maxFiles)| <= maxFiles
    decreases |drops|
  {
    if drops != [] {
      DropStaysWithinLimit(Drop(files, drops[0], maxFiles).files, drops[1..], maxFiles);
    }
  }

  /** Several drops in a row. */
  function DropAll(files: seq<File>, drops: seq<seq<File>>, maxFiles: nat): seq<File>
    decreases |drops|
  {
    if drops == [] then files else DropAll(Drop(files, drops[0], maxFiles).files, drops[1..], maxFiles)
  }
}
