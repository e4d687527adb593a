/**
 * The background-image picker of the generation form: it validates offered
 * files, keeps at most seven, holds a preview URL per kept file and can
 * remove a file again. `files` is the list the parent form holds; the
 * picker's `onFilesChange` replaces it, which the model writes as an update
 * of the field. Toasts are recorded as the list of messages shown.
 */
module BackgroundUpload {
  import opened Common
  import opened Files
  import opened Validations

  function InvalidTypeMessage(name: string): string
  {
    "Invalid file type: " + name + ". Use JPEG, PNG, or WebP."
  }

  function TooLargeMessage(name: string): string
  {
    "File too large: " + name + ". Maximum size is 5MB."
  }

  const TooManyMessage := "Maximum " + NatToString(MaxBackgrounds) + " images allowed."

  /** A background must be a JPEG, PNG or WebP image of at most 5 MiB. */
  predicate ValidFile(f: File)
  {
    f.mimeType in AllowedImageTypes && f.size <= MaxFileSize
  }

  /** `validateFile`: the type is checked before the size, and each failure
      shows its own message. */
  function ValidateFile(f: File): (r: Outcome)
    ensures r == Pass <==> ValidFile(f)
    ensures f.mimeType !in AllowedImageTypes ==> r == Fail(InvalidTypeMessage(f.name))
    ensures f.mimeType in AllowedImageTypes && f.size > MaxFileSize ==> r == Fail(TooLargeMessage(f.name))
  {
    if f.mimeType !in AllowedImageTypes then Fail(InvalidTypeMessage(f.name))
    else if f.size > MaxFileSize then Fail(TooLargeMessage(f.name))
    else Pass
  }

  /** The files of `fs` that pass validation, in their order. */
  function Accepted(fs: seq<File>): (r: seq<File>)
    ensures |r| <= |fs|
  {
    if fs == [] then []
    else
      var rest := Accepted(fs[..|fs| - 1]);
      if ValidFile(fs[|fs| - 1]) then rest + [fs[|fs| - 1]] else rest
  }

  /** The accepted files are exactly the offered files that pass validation. */
  lemma {:induction false} AcceptedMembers(fs: seq<File>)
    ensures forall k :: 0 <= k < |Accepted(fs)| ==> Accepted(fs)[k] in fs && ValidFile(Accepted(fs)[k])
    ensures forall k :: 0 <= k < |fs| && ValidFile(fs[k]) ==> fs[k] in Accepted(fs)
  {
    if fs != [] {
      AcceptedMembers(fs[..|fs| - 1]);
      assert fs == fs[..|fs| - 1] + [fs[|fs| - 1]];
    }
  }

  /** Filtering distributes over concatenation, so accepted files keep the
      order in which they were offered. */
  lemma {:induction false} AcceptedAppend(a: seq<File>, b: seq<File>)
    ensures Accepted(a + b) == Accepted(a) + Accepted(b)
  {
    if b != [] {
      var b' := b[..|b| - 1];
      AcceptedAppend(a, b');
      assert (a + b)[..|a + b| - 1] == a + b';
    } else {
      assert a + b == a;
    }
  }

  /** The messages validation shows for the rejected files of `fs`, in order. */
  function RejectionToasts(fs: seq<File>): (r: seq<string>)
    ensures |r| <= |fs|
  {
    if fs == [] then []
    else
      var rest := RejectionToasts(fs[..|fs| - 1]);
      var v := ValidateFile(fs[|fs| - 1]);
      if v.Fail? then rest + [v.error] else rest
  }

  /** Every processed file is either accepted or shows exactly one message. */
  lemma {:induction false} AcceptedOrRejected(fs: seq<File>)
    ensures |RejectionToasts(fs)| + |Accepted(fs)| == |fs|
  {
    if fs != [] {
      AcceptedOrRejected(fs[..|fs| - 1]);
    }
  }

  /** One more file processed: it is accepted, or its message is shown. */
  lemma ProcessStep(fs: seq<File>, f: File)
    ensures Accepted(fs + [f]) == if ValidFile(f) then Accepted(fs) + [f] else Accepted(fs)
    ensures RejectionToasts(fs + [f])
            == if ValidateFile(f).Fail? then RejectionToasts(fs) + [ValidateFile(f).error] else RejectionToasts(fs)
  {
    assert (fs + [f])[..|fs|] == fs;
  }

  /** The files `addFiles` looks at: `Array.from(newFiles).slice(0, 7 - files.length)`. */
  function ToProcess(current: seq<File>, offered: seq<File>): seq<File>
  {
    SliceTo(offered, MaxBackgrounds as int - |current|)
  }

  /** Starting with at most seven files, adding keeps at most seven. */
  lemma SlotsBoundGrowth(current: seq<File>, offered: seq<File>)
    requires |current| <= MaxBackgrounds
    ensures |current| + |Accepted(ToProcess(current, offered))| <= MaxBackgrounds
  {
    var p := ToProcess(current, offered);
    assert |p| <= MaxBackgrounds - |current|;
  }

  /** With seven files nothing more is taken, whatever is offered. */
  lemma FullPickerTakesNothing(current: seq<File>, offered: seq<File>)
    requires |current| == MaxBackgrounds
    ensures Accepted(ToProcess(current, offered)) == []
  {
    assert ToProcess(current, offered) == [];
  }

  /** The preview entries created for `fs`, one `newPreviews.set` per file. */
  function PreviewMap(fs: seq<File>, objectUrl: File -> string): (m: map<File, string>)
    ensures fs == [] ==> m == map[]
  {
    if fs == [] then map[]
    else PreviewMap(fs[..|fs| - 1], objectUrl)[fs[|fs| - 1] := objectUrl(fs[|fs| - 1])]
  }

  /** Each file of `fs` gets its object URL as preview, and nothing else
      gets an entry. */
  lemma {:induction false} PreviewMapEntries(fs: seq<File>, objectUrl: File -> string)
    ensures forall k :: 0 <= k < |fs| ==> fs[k] in PreviewMap(fs, objectUrl) && PreviewMap(fs, objectUrl)[fs[k]] == objectUrl(fs[k])
    ensures forall f :: f in PreviewMap(fs, objectUrl) ==> f in fs
  {
    if fs != [] {
      PreviewMapEntries(fs[..|fs| - 1], objectUrl);
      assert fs == fs[..|fs| - 1] + [fs[|fs| - 1]];
    }
  }

  lemma PreviewMapSnoc(base: map<File, string>, fs: seq<File>, f: File, objectUrl: File -> string)
    ensures (base + PreviewMap(fs, objectUrl))[f := objectUrl(f)] == base + PreviewMap(fs + [f], objectUrl)
  {
    assert (fs + [f])[..|fs|] == fs;
    assert PreviewMap(fs + [f], objectUrl) == PreviewMap(fs, objectUrl)[f := objectUrl(f)];
  }

  /** `files.filter((f) => f !== fileToRemove)`: by object identity. */
  function Without(fs: seq<File>, gone: File): (r: seq<File>)
    ensures forall k :: 0 <= k < |r| ==> r[k] in fs && r[k] != gone
    ensures forall k :: 0 <= k < |fs| && fs[k] != gone ==> fs[k] in r
    ensures |r| <= |fs|
  {
    if fs == [] then []
    else
      var rest := Without(fs[..|fs| - 1], gone);
      assert fs == fs[..|fs| - 1] + [fs[|fs| - 1]];
      if fs[|fs| - 1] != gone then rest + [fs[|fs| - 1]] else rest
  }

  lemma {:induction false} WithoutAppend(a: seq<File>, b: seq<File>, gone: File)
    ensures Without(a + b, gone) == Without(a, gone) + Without(b, gone)
  {
    if b != [] {
      var b' := b[..|b| - 1];
      WithoutAppend(a, b', gone);
      assert (a + b)[..|a + b| - 1] == a + b';
    } else {
      assert a + b == a;
    }
  }

  lemma WithoutMiddle(a: seq<File>, gone: File, b: seq<File>)
    requires gone !in a && gone !in b
    ensures Without(a + [gone] + b, gone) == a + b
  {
    WithoutKeepsAbsent(a, gone);
    WithoutKeepsAbsent(b, gone);
    WithoutAppend(a + [gone], b, gone);
    WithoutAppend(a, [gone], gone);
    assert [gone][..0] == [];
  }

  /** Removing a file that occurs once takes out exactly that position and
      leaves the others in order. */
  lemma RemoveExactlyThat(fs: seq<File>, k: nat)
    requires k < |fs|
    requires forall j :: 0 <= j < |fs| && j != k ==> fs[j] != fs[k]
    ensures Without(fs, fs[k]) == fs[..k] + fs[k + 1..]
  {
    var gone := fs[k];
    var a, b := fs[..k], fs[k + 1..];
    assert fs == a + [gone] + b;
    assert gone !in a;
    assert gone !in b;
    WithoutMiddle(a, gone, b);
  }

  lemma {:induction false} WithoutKeepsAbsent(fs: seq<File>, gone: File)
    requires gone !in fs
    ensures Without(fs, gone) == fs
  {
    if fs != [] {
      WithoutKeepsAbsent(fs[..|fs| - 1], gone);
      assert fs == fs[..|fs| - 1] + [fs[|fs| - 1]];
    }
  }

  class Picker {
    const disabled: bool
    var files: seq<File>
    var previews: map<File, string>
    /** Preview URLs released with `URL.revokeObjectURL`. */
    var revoked: seq<string>
    var toasts: seq<string>

    constructor (files: seq<File>, disabled: bool)
      ensures this.files == files && this.disabled == disabled
      ensures previews == map[] && revoked == [] && toasts == []
    {
      this.files := files;
      this.disabled := disabled;
      previews := map[];
      revoked := [];
      toasts := [];
    }

    /** `canAddMore` */
    predicate CanAddMore()
      reads this
    {
      |files| < MaxBackgrounds && !disabled
    }

    /** `addFiles(newFiles)`; `objectUrl` stands for `URL.createObjectURL`. */
    method AddFiles(newFiles: seq<File>, objectUrl: File -> string)
      modifies this`files, this`previews, this`toasts
      ensures files == old(files) + Accepted(ToProcess(old(files), newFiles))
      ensures previews == old(previews) + PreviewMap(Accepted(ToProcess(old(files), newFiles)), objectUrl)
      ensures toasts == old(toasts) + RejectionToasts(ToProcess(old(files), newFiles))
                        + (if |newFiles| > MaxBackgrounds - |old(files)| then [TooManyMessage] else [])
      ensures |old(files)| <= MaxBackgrounds ==> |files| <= MaxBackgrounds
      ensures Accepted(ToProcess(old(files), newFiles)) == [] ==> files == old(files) && previews == old(previews)
    {
      var remainingSlots := MaxBackgrounds as int - |files|;
      var toProcess := SliceTo(newFiles, remainingSlots);
      assert toProcess == ToProcess(files, newFiles);
      var validFiles, newPreviews := Scan(toProcess, objectUrl);
      if |files| <= MaxBackgrounds {
        SlotsBoundGrowth(files, newFiles);
      }
      if |validFiles| > 0 {
        previews := newPreviews;
        files := files + validFiles;
      } else {
        assert files + validFiles == files;
        assert previews + PreviewMap(validFiles, objectUrl) == previews;
      }
      ghost var scanned := toasts;
      var tooMany := |newFiles| > remainingSlots;
      if tooMany {
        toasts := toasts + [TooManyMessage];
      }
      assert toasts == scanned + (if tooMany then [TooManyMessage] else []);
    }

    /** The `for (const file of filesToProcess)` loop of `addFiles`: the
        valid files in order, the preview map extended with theirs, and a
        message shown for each rejected file. */
    method Scan(toProcess: seq<File>, objectUrl: File -> string) returns (validFiles: seq<File>, newPreviews: map<File, string>)
      modifies this`toasts
      ensures validFiles == Accepted(toProcess)
      ensures newPreviews == previews + PreviewMap(validFiles, objectUrl)
      ensures toasts == old(toasts) + RejectionToasts(toProcess)
    {
      validFiles := [];
      var previews0 := previews;
      newPreviews := previews;
      var i := 0;
      while i < |toProcess|
        invariant 0 <= i <= |toProcess|
        invariant validFiles == Accepted(toProcess[..i])
        invariant newPreviews == previews0 + PreviewMap(validFiles, objectUrl)
        invariant toasts == old(toasts) + RejectionToasts(toProcess[..i])
      {
        var file := toProcess[i];
        assert toProcess[..i + 1] == toProcess[..i] + [file];
        ProcessStep(toProcess[..i], file);
        var v := ValidateFile(file);
        if v.Pass? {
          PreviewMapSnoc(previews0, validFiles, file, objectUrl);
          validFiles := validFiles + [file];
          newPreviews := newPreviews[file := objectUrl(file)];
        } else {
          toasts := toasts + [v.error];
        }
        i := i + 1;
      }
      assert toProcess[..i] == toProcess;
      assert previews == previews0;
    }

    /** `removeFile(fileToRemove)`: releases its preview URL when it has a
        non-empty one, drops its preview, and filters it out of the list. */
    method RemoveFile(fileToRemove: File)
      modifies this`files, this`previews, this`revoked
      ensures files == Without(old(files), fileToRemove)
      ensures previews == old(previews) - {fileToRemove}
      ensures revoked == old(revoked)
                         + (if fileToRemove in old(previews) && old(previews)[fileToRemove] != ""
                            then [old(previews)[fileToRemove]] else [])
    {
      if fileToRemove in previews && previews[fileToRemove] != "" {
        revoked := revoked + [previews[fileToRemove]];
      }
      previews := previews - {fileToRemove};
      files := Without(files, fileToRemove);
    }
  }

  /** The add control is offered exactly while a slot is free and the
      picker is enabled; with a free slot a single valid file is taken. */
  lemma CanAddMoreTakesOne(p: Picker, f: File)
    requires p.CanAddMore() && ValidFile(f)
    ensures Accepted(ToProcess(p.files, [f])) == [f]
  {
    assert ToProcess(p.files, [f]) == [f];
    assert Accepted([f]) == Accepted([]) + [f];
  }
}
