/**
 * The attachments of sigmund's chat page: files chosen in the file input or
 * pasted into the page are checked (at most 4 MB, and an extension from a
 * fixed list), accepted ones are kept in the order they came in, rejected
 * ones raise an alert with the one reason, and the list shown under the
 * message box follows every change.
 */
module Attachments {
  import opened Wrappers
  import opened Strings
  import PyLists
  import Seqs

  /** `ALLOWED_EXTENSIONS`. */
  const AllowedExtensions: seq<string> := ["pdf", "doc", "docx", "png", "jpg"]

  /** `MAX_FILE_SIZE`, 4 MB. */
  const MaxFileSize: nat := 4 * 1024 * 1024

  /** A file as the page reads it: its name, its size in bytes and its MIME type. */
  datatype File = File(name: string, size: nat, mimeType: string)

  /** An item of the clipboard: its kind, and the file `getAsFile` gives (`None` for `null`). */
  datatype ClipItem = ClipItem(kind: string, file: Option<File>)

  /** Why a file is refused, if it is. */
  datatype Verdict = Accept | TooLarge | NotAllowed

  /** `file.name.split('.').pop().toLowerCase()`: the text after the last dot, or the whole name. */
  function Extension(name: string): string
  {
    var parts := Split(name, '.');
    Lower(parts[|parts| - 1])
  }

  /** The size check comes first, then the extension check. */
  function VerdictOf(file: File): Verdict
  {
    if file.size > MaxFileSize then TooLarge
    else if Extension(file.name) !in AllowedExtensions then NotAllowed
    else Accept
  }

  /** The alert a refused file raises. */
  function AlertOf(file: File): string
  {
    if file.size > MaxFileSize then "\"" + file.name + "\" is too large. The maximum allowed size is 4 MB."
    else "\"" + file.name + "\" is not allowed. Allowed types are: " + Join(AllowedExtensions, ", ") + "."
  }

  predicate Accepted(file: File)
  {
    VerdictOf(file).Accept?
  }

  /** The files of a selection that are accepted, in order. */
  function AcceptedOf(files: seq<File>): seq<File>
  {
    PyLists.Filter(files, Accepted)
  }

  /** The alerts a selection raises, in order. */
  function AlertsOf(files: seq<File>): seq<string>
    decreases |files|
  {
    if files == [] then []
    else
      var last := files[|files| - 1];
      AlertsOf(files[..|files| - 1]) + (if Accepted(last) then [] else [AlertOf(last)])
  }

  /** The names in the list under the message box. */
  function Names(files: seq<File>): (r: seq<string>)
    ensures |r| == |files| && forall i :: 0 <= i < |files| ==> r[i] == files[i].name
    decreases |files|
  {
    if files == [] then [] else Names(files[..|files| - 1]) + [files[|files| - 1].name]
  }

  /** The name a pasted image is given when it has none: `pasted_image.` and the MIME subtype, `jpeg` written `jpg`. */
  function Named(file: File): File
  {
    if StartsWith(file.mimeType, "image/") then
      var parts := Split(file.mimeType, '/');
      var sub := Lower(if |parts| > 1 then parts[1] else "");
      var extension := if sub == "jpeg" then "jpg" else sub;
      if file.name == "" then file.(name := "pasted_image." + extension) else file
    else file
  }

  /** The files a paste hands on: those of items of kind `file` that give one, named. */
  function PastedOf(items: seq<ClipItem>): seq<File>
    decreases |items|
  {
    if items == [] then []
    else
      var last := items[|items| - 1];
      PastedOf(items[..|items| - 1]) + (if last.kind == "file" && last.file.Some? then [Named(last.file.value)] else [])
  }

  /** JavaScript `s.splice(index, 1)` on a list: a negative index counts from the end, one past the end removes nothing. */
  function SpliceOne<T>(s: seq<T>, index: int): seq<T>
  {
    var start := if index < 0 then (if |s| + index < 0 then 0 else |s| + index) else (if index > |s| then |s| else index);
    if start < |s| then s[..start] + s[start + 1..] else s
  }

  /** Every file of a selection is either accepted or raises exactly one alert, and the accepted ones are exactly those passing both checks. */
  lemma {:induction false} EachFileOneOutcome(files: seq<File>)
    ensures |AcceptedOf(files)| + |AlertsOf(files)| == |files|
    ensures forall f :: f in AcceptedOf(files) <==> f in files && f.size <= MaxFileSize && Extension(f.name) in AllowedExtensions
    decreases |files|
  {
    if files != [] {
      EachFileOneOutcome(files[..|files| - 1]);
    }
    forall f
      ensures f in AcceptedOf(files) <==> f in files && Accepted(f)
    {
      PyLists.FilterMembers(files, Accepted, f);
    }
  }

  /** One more file of a selection adds its own outcome. */
  lemma OutcomeStep(files: seq<File>, i: nat)
    requires i < |files|
    ensures AcceptedOf(files[..i + 1]) == AcceptedOf(files[..i]) + (if Accepted(files[i]) then [files[i]] else [])
    ensures AlertsOf(files[..i + 1]) == AlertsOf(files[..i]) + (if Accepted(files[i]) then [] else [AlertOf(files[i])])
  {
    assert files[..i + 1][..i] == files[..i];
  }

  /** An oversized file is reported as too large whatever its extension. */
  lemma SizeCheckFirst(file: File)
    requires file.size > MaxFileSize
    ensures VerdictOf(file) == TooLarge
    ensures AlertOf(file) == "\"" + file.name + "\" is too large. The maximum allowed size is 4 MB."
  {
  }

  /** A pasted image without a name is named after its MIME subtype, with `jpeg` as `jpg`; a named file keeps its name. */
  lemma {:induction false} PastedImageName(file: File, sub: string)
    requires file.mimeType == "image/" + sub && '/' !in sub
    ensures var n := Named(file);
      && (file.name != "" ==> n == file)
      && (file.name == "" && Lower(sub) == "jpeg" ==> n.name == "pasted_image.jpg")
      && (file.name == "" && Lower(sub) != "jpeg" ==> n.name == "pasted_image." + Lower(sub))
      && n.size == file.size && n.mimeType == file.mimeType
  {
    assert StartsWith(file.mimeType, "image/") by { assert file.mimeType[..6] == "image/"; }
    assert file.mimeType == "image" + ['/'] + sub;
    SplitSecond("image", sub, '/');
    assert Split(file.mimeType, '/')[1] == sub;
  }

  /** Splitting `a + [c] + b`, with the separator in neither part, gives `[a, b]`. */
  lemma {:induction false} SplitSecond(a: string, b: string, c: char)
    requires c !in a && c !in b
    ensures Split(a + [c] + b, c) == [a, b]
    decreases |a|
  {
    var s := a + [c] + b;
    if a == [] {
      assert s[1..] == b;
      SplitNone(b, c);
    } else {
      assert s[0] == a[0] && a[0] != c;
      assert s[1..] == a[1..] + [c] + b;
      assert c !in a[1..];
      SplitSecond(a[1..], b, c);
      assert [a[0]] + a[1..] == a;
    }
  }

  /** A string without the separator splits into itself. */
  lemma {:induction false} SplitNone(s: string, c: char)
    requires c !in s
    ensures Split(s, c) == [s]
    decreases |s|
  {
    if s != [] {
      assert s[0] != c && c !in s[1..];
      SplitNone(s[1..], c);
      assert [s[0]] + s[1..] == s;
    }
  }

  /** `splice(index, 1)` on an index of the list removes exactly that element and keeps the rest in order. */
  lemma RemovesOne<T>(s: seq<T>, index: int)
    requires 0 <= index < |s|
    ensures SpliceOne(s, index) == s[..index] + s[index + 1..]
    ensures |SpliceOne(s, index)| == |s| - 1
  {
  }

  /** The page's `attachments` array, its alerts and the list it shows. */
  class AttachmentList {
    /** `attachments`. */
    var files: seq<File>
    /** The alerts raised so far. */
    var alerts: seq<string>
    /** The names `renderAttachments` last listed. */
    var listed: seq<string>

    /** The list shows the attachments. */
    predicate Valid()
      reads this
    {
      listed == Names(files)
    }

    constructor ()
      ensures Valid() && files == [] && alerts == []
    {
      files := [];
      alerts := [];
      listed := [];
    }

    /** `renderAttachments`. */
    method Render()
      modifies this
      ensures Valid() && files == old(files) && alerts == old(alerts)
    {
      listed := Names(files);
    }

    /** `validateAndAddFile`. */
    method ValidateAndAdd(file: File)
      modifies this
      ensures files == old(files) + (if Accepted(file) then [file] else [])
      ensures alerts == old(alerts) + (if Accepted(file) then [] else [AlertOf(file)])
      ensures listed == old(listed)
    {
      var extension := Extension(file.name);
      if file.size > MaxFileSize {
        alerts := alerts + ["\"" + file.name + "\" is too large. The maximum allowed size is 4 MB."];
      } else if extension !in AllowedExtensions {
        alerts := alerts + ["\"" + file.name + "\" is not allowed. Allowed types are: " + Join(AllowedExtensions, ", ") + "."];
      } else {
        files := files + [file];
      }
    }

    /** Each file in turn through `validateAndAddFile`, then `renderAttachments`. */
    method AddAll(selected: seq<File>)
      modifies this
      ensures Valid()
      ensures files == old(files) + AcceptedOf(selected)
      ensures alerts == old(alerts) + AlertsOf(selected)
    {
      ghost var files0, alerts0 := files, alerts;
      for i := 0 to |selected|
        invariant files == files0 + AcceptedOf(selected[..i])
        invariant alerts == alerts0 + AlertsOf(selected[..i])
      {
        OutcomeStep(selected, i);
        ValidateAndAdd(selected[i]);
        Seqs.Assoc(files0, AcceptedOf(selected[..i]), if Accepted(selected[i]) then [selected[i]] else []);
        Seqs.Assoc(alerts0, AlertsOf(selected[..i]), if Accepted(selected[i]) then [] else [AlertOf(selected[i])]);
      }
      assert selected[..|selected|] == selected;
      Render();
    }

    /** The `change` listener of the file input. */
    method Change(selected: seq<File>)
      modifies this
      ensures Valid()
      ensures files == old(files) + AcceptedOf(selected)
      ensures alerts == old(alerts) + AlertsOf(selected)
    {
      AddAll(selected);
    }

    /** The `paste` listener: the clipboard's files, images named, through `validateAndAddFile`, then `renderAttachments`. */
    method Paste(items: seq<ClipItem>)
      modifies this
      ensures Valid()
      ensures files == old(files) + AcceptedOf(PastedOf(items))
      ensures alerts == old(alerts) + AlertsOf(PastedOf(items))
    {
      var pasted: seq<File> := [];
      for i := 0 to |items|
        invariant pasted == PastedOf(items[..i])
      {
        assert items[..i + 1][..i] == items[..i];
        var item := items[i];
        if item.kind == "file" && item.file.Some? {
          pasted := pasted + [Named(item.file.value)];
        }
      }
      assert items[..|items|] == items;
      AddAll(pasted);
    }

    /** `removeAttachment`. */
    method Remove(index: int)
      modifies this
      ensures Valid() && files == SpliceOne(old(files), index) && alerts == old(alerts)
    {
      files := SpliceOne(files, index);
      Render();
    }

    /** `clearAttachments`. */
    method Clear()
      modifies this
      ensures Valid() && files == [] && alerts == old(alerts)
    {
      files := [];
      Render();
    }
  }
}
