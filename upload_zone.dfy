/**
 * The `AudioUploadZone` component of frontend/src/components/AudioUploadZone.tsx:
 * a click-to-browse input and a drop target, both forwarding at most one file to the
 * parent's `onFileSelect`, plus the Remove control that clears the selection.
 */
module UploadZone {
  import opened Wrappers
  import opened Text
  import opened JobController

  const AudioPrefix := "audio/"

  /** `file.type.startsWith('audio/')`. */
  predicate IsAudio(f: File) {
    StartsWith(f.mimeType, AudioPrefix)
  }

  /** `files?.[0]` followed by `if (file)`: the picker forwards the first file, of any type. */
  function FromPicker(files: seq<File>): (forwarded: Option<File>)
    ensures forwarded.Some? <==> files != []
    ensures forwarded.Some? ==> forwarded.value == files[0]
  {
    if files != [] then Some(files[0]) else None
  }

  /** The drop handler forwards the first dropped file, and only when it is audio. */
  function FromDrop(files: seq<File>): (forwarded: Option<File>)
    ensures forwarded.Some? <==> files != [] && IsAudio(files[0])
    ensures forwarded.Some? ==> forwarded.value == files[0]
  {
    if files != [] && IsAudio(files[0]) then Some(files[0]) else None
  }

  /** A drop is accepted exactly when the first file's media type begins with the six characters `audio/`. */
  lemma DropAcceptsIffAudioType(files: seq<File>)
    ensures FromDrop(files).Some? <==>
      files != [] && |files[0].mimeType| >= 6 && files[0].mimeType[..6] == "audio/"
  {
    if files != [] {
      StartsWithIsPrefix(files[0].mimeType, AudioPrefix);
    }
  }

  /** Every audio media type is accepted on drop, whatever follows the slash. */
  lemma DropAcceptsAnyAudioSubtype(subtype: string, name: string, size: nat, rest: seq<File>)
    ensures FromDrop([File(name, size, AudioPrefix + subtype)] + rest) == Some(File(name, size, AudioPrefix + subtype))
  {
    StartsWithConcat(AudioPrefix, subtype);
  }

  /** The drop rule is the picker rule with the audio test added: whatever a drop forwards, the picker would forward too. */
  lemma DropIsStricterThanPicker(files: seq<File>)
    ensures FromDrop(files).Some? ==> FromDrop(files) == FromPicker(files)
    ensures FromPicker(files).Some? && IsAudio(files[0]) ==> FromDrop(files) == FromPicker(files)
  {
  }

  /** The asymmetry: a non-audio file is taken from the picker and ignored on drop. */
  lemma PickerTakesWhatDropRefuses()
    ensures FromPicker([File("notes.txt", 12, "text/plain")]).Some?
    ensures FromDrop([File("notes.txt", 12, "text/plain")]).None?
  {
  }

  /**
   * The browser's rule for the input's `change` event: it fires only when choosing
   * files changes the input's value. This is why `clearFile` resets the value.
   */
  predicate ChangeFires(oldValue: string, newValue: string) {
    oldValue != newValue
  }

  /** Whether a choice in the dialog reaches `handleFileSelect`: the input is enabled and its value changes. */
  predicate InputDelivers(disabled: bool, oldValue: string, newValue: string) {
    !disabled && ChangeFires(oldValue, newValue)
  }

  /** Whether a click on Remove runs `clearFile`: the control is rendered only with a file, and is disabled with the zone. */
  predicate RemoveActive(selectedFile: Option<File>, disabled: bool) {
    selectedFile.Some? && !disabled
  }

  class AudioUploadZone {
    /** The parent: `onFileSelect` is its `setSelectedFile`, `disabled` its `isLoading`. */
    const app: App
    /** `fileInputRef.current.value`. */
    var inputValue: string

    constructor (parent: App)
      ensures app == parent && inputValue == ""
    {
      app := parent;
      inputValue := "";
    }

    /** The `disabled` prop. */
    function Disabled(): (disabled: bool)
      reads app
      ensures disabled <==> ZoneDisabled(app.State())
    {
      app.isLoading
    }

    /** `handleFileSelect`: forward the first chosen file, if any, without a type check. */
    method HandleFileSelect(files: seq<File>)
      modifies app
      ensures files != [] ==> app.State() == SelectFile(old(app.State()), Some(files[0]))
      ensures files == [] ==> app.State() == old(app.State())
    {
      var file := FromPicker(files);
      if file.Some? {
        app.SetSelectedFile(file);
      }
    }

    /** `handleDrop`: forward the first dropped file if it is audio; ignore the drop otherwise. No `disabled` check. */
    method HandleDrop(files: seq<File>)
      modifies app
      ensures FromDrop(files).Some? ==> app.State() == SelectFile(old(app.State()), Some(files[0]))
      ensures FromDrop(files).None? ==> app.State() == old(app.State())
    {
      var file := FromDrop(files);
      if file.Some? {
        app.SetSelectedFile(file);
      }
    }

    /** `clearFile`: forward `null` and reset the input so the same file can be chosen again. */
    method ClearFile()
      modifies this, app
      ensures app.State() == SelectFile(old(app.State()), None)
      ensures inputValue == ""
    {
      app.SetSelectedFile(None);
      inputValue := "";
    }

    /** A click on the zone: opens the file dialog unless disabled. Changes no state. */
    method ClickZone() returns (opensPicker: bool)
      ensures opensPicker <==> !Disabled()
    {
      opensPicker := !app.isLoading;
    }

    /**
     * The browser delivering the files chosen in the dialog, with the value the
     * input takes for them: a disabled input receives nothing, and no `change`
     * fires when the value did not change; otherwise `handleFileSelect` runs.
     */
    method InputChange(files: seq<File>, value: string)
      modifies this, app
      ensures Disabled() == old(Disabled())
      ensures !InputDelivers(old(Disabled()), old(inputValue), value) ==>
        inputValue == old(inputValue) && app.State() == old(app.State())
      ensures InputDelivers(old(Disabled()), old(inputValue), value) ==>
        inputValue == value &&
        app.State() == if files != [] then SelectFile(old(app.State()), Some(files[0])) else old(app.State())
    {
      if InputDelivers(Disabled(), inputValue, value) {
        inputValue := value;
        HandleFileSelect(files);
      }
    }

    /**
     * A click on Remove. The control is shown only while a file is selected and is
     * disabled with the zone; the click stops propagation, so it never also opens
     * the dialog.
     */
    method PressRemove() returns (opensPicker: bool)
      modifies this, app
      ensures !opensPicker
      ensures RemoveActive(old(app.selectedFile), old(Disabled())) ==>
        app.State() == SelectFile(old(app.State()), None) && inputValue == ""
      ensures !RemoveActive(old(app.selectedFile), old(Disabled())) ==>
        app.State() == old(app.State()) && inputValue == old(inputValue)
    {
      opensPicker := false;
      if RemoveActive(app.selectedFile, Disabled()) {
        ClearFile();
      }
    }
  }
}
