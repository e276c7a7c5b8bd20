/** The admin song-upload form: the section multi-select, the file pickers, and the submit guard
    and reset. Files are represented by their names. */
module UploadForm {
  import opened Types

  /** `prev.filter(sid => sid !== id)`. */
  function RemoveAll(s: seq<string>, id: string): (r: seq<string>)
    ensures |r| <= |s|
    ensures forall y :: y in r <==> y in s && y != id
  {
    if s == [] then []
    else if s[0] == id then RemoveAll(s[1..], id)
    else [s[0]] + RemoveAll(s[1..], id)
  }

  predicate NoDuplicates(s: seq<string>) {
    forall i, j :: 0 <= i < j < |s| ==> s[i] != s[j]
  }

  /** `toggleSection`: removes the id when it is selected, otherwise appends it. */
  function ToggleSection(prev: seq<string>, id: string): (r: seq<string>)
    ensures id in prev ==> id !in r && forall y :: y != id ==> (y in r <==> y in prev)
    ensures id !in prev ==> r == prev + [id]
  {
    if id in prev then RemoveAll(prev, id) else prev + [id]
  }

  /** Removing an id that is absent changes nothing. */
  lemma {:induction false} RemoveAbsent(s: seq<string>, id: string)
    requires id !in s
    ensures RemoveAll(s, id) == s
  {
    if s != [] {
      RemoveAbsent(s[1..], id);
    }
  }

  /** Removal distributes over concatenation. */
  lemma {:induction false} RemoveAppend(s: seq<string>, t: seq<string>, id: string)
    ensures RemoveAll(s + t, id) == RemoveAll(s, id) + RemoveAll(t, id)
  {
    if s != [] {
      assert (s + t)[1..] == s[1..] + t;
      RemoveAppend(s[1..], t, id);
    } else {
      assert s + t == t;
    }
  }

  /** Toggling an unselected id twice restores the selection exactly. */
  lemma {:induction false} ToggleAbsentTwice(prev: seq<string>, id: string)
    requires id !in prev
    ensures ToggleSection(ToggleSection(prev, id), id) == prev
  {
    RemoveAppend(prev, [id], id);
    RemoveAbsent(prev, id);
    assert RemoveAll([id], id) == [];
  }

  /** Toggling any id twice restores the selection as a set. */
  lemma ToggleTwiceSameSet(prev: seq<string>, id: string)
    ensures forall y :: y in ToggleSection(ToggleSection(prev, id), id) <==> y in prev
  {
  }

  /** Removal keeps the remaining ids without duplicates. */
  lemma {:induction false} RemoveKeepsNoDuplicates(s: seq<string>, id: string)
    requires NoDuplicates(s)
    ensures NoDuplicates(RemoveAll(s, id))
  {
    if s != [] {
      assert NoDuplicates(s[1..]) by {
        forall i, j | 0 <= i < j < |s[1..]| ensures s[1..][i] != s[1..][j] {
          assert s[1..][i] == s[i + 1] && s[1..][j] == s[j + 1];
        }
      }
      RemoveKeepsNoDuplicates(s[1..], id);
      if s[0] != id {
        var rest := RemoveAll(s[1..], id);
        assert s[0] !in s[1..] by {
          forall k | 0 <= k < |s[1..]| ensures s[1..][k] != s[0] {
            assert s[1..][k] == s[k + 1];
          }
        }
        assert s[0] !in rest;
        var r := [s[0]] + rest;
        forall i, j | 0 <= i < j < |r| ensures r[i] != r[j] {
          if i == 0 {
            assert r[j] == rest[j - 1];
          } else {
            assert r[i] == rest[i - 1] && r[j] == rest[j - 1];
          }
        }
      }
    }
  }

  /** The selection never holds an id twice. */
  lemma {:induction false} ToggleKeepsNoDuplicates(prev: seq<string>, id: string)
    requires NoDuplicates(prev)
    ensures NoDuplicates(ToggleSection(prev, id))
  {
    if id in prev {
      RemoveKeepsNoDuplicates(prev, id);
    }
  }

  /** In a list without duplicates, the entry at position k occurs nowhere before or after it. */
  lemma OccursOnlyAt(s: seq<string>, k: int)
    requires NoDuplicates(s) && 0 <= k < |s|
    ensures s[k] !in s[..k] && s[k] !in s[k + 1..]
  {
    var pre := s[..k];
    forall i | 0 <= i < |pre| ensures pre[i] != s[k] {
      assert pre[i] == s[i];
    }
    var post := s[k + 1..];
    forall i | 0 <= i < |post| ensures post[i] != s[k] {
      assert post[i] == s[k + 1 + i];
    }
  }

  /** Removing an id that occurs once, at position k, cuts out exactly that position: the other
      ids stay in place and in order. */
  lemma {:induction false} RemoveAtPosition(s: seq<string>, id: string, k: int)
    requires NoDuplicates(s) && 0 <= k < |s| && s[k] == id
    ensures RemoveAll(s, id) == s[..k] + s[k + 1..]
  {
    assert s == s[..k] + [id] + s[k + 1..];
    RemoveAppend(s[..k] + [id], s[k + 1..], id);
    RemoveAppend(s[..k], [id], id);
    assert RemoveAll([id], id) == [];
    OccursOnlyAt(s, k);
    RemoveAbsent(s[..k], id);
    RemoveAbsent(s[k + 1..], id);
  }

  /** `sections.filter(section => section.isActive)`: the sections offered for selection. */
  function ActiveSections(sections: seq<Section>): (r: seq<Section>)
    ensures |r| <= |sections|
    ensures forall s :: s in r <==> s in sections && s.isActive
  {
    if sections == [] then []
    else if sections[0].isActive then [sections[0]] + ActiveSections(sections[1..])
    else ActiveSections(sections[1..])
  }

  /** The offered sections keep the order in which the sections are listed. */
  lemma {:induction false} ActiveSectionsInOrder(sections: seq<Section>)
    ensures Sublist(ActiveSections(sections), sections)
    decreases |sections|
  {
    if sections != [] {
      ActiveSectionsInOrder(sections[1..]);
      var rest := ActiveSections(sections[1..]);
      if sections[0].isActive {
        assert ([sections[0]] + rest)[1..] == rest;
      }
    }
  }

  /** The request handed to the upload service. */
  datatype UploadRequest = UploadRequest(title: string, artist: string, audioFile: string, coverFile: string, sectionIds: seq<string>)

  /** The upload a press of the submit button starts, if any. The title and artist inputs are
      `required`, so the browser does not fire the submit event while either is empty; the handler
      then returns unless both files are chosen. */
  function SubmitRequest(title: string, artist: string, audioFile: Option<string>, coverFile: Option<string>,
                         sections: seq<string>): (r: Option<UploadRequest>)
    ensures r.Some? <==> title != "" && artist != "" && audioFile.Some? && coverFile.Some?
    ensures r.Some? ==> r.value.title != "" && r.value.artist != ""
    ensures r.Some? ==> r.value == UploadRequest(title, artist, audioFile.value, coverFile.value, sections)
  {
    if title == "" || artist == "" then None
    else if audioFile.None? || coverFile.None? then None
    else Some(UploadRequest(title, artist, audioFile.value, coverFile.value, sections))
  }

  /** The form's own state. */
  class UploadSongForm {
    var title: string
    var artist: string
    var audioFile: Option<string>
    var coverFile: Option<string>
    var loading: bool
    var audioPreview: Option<string>
    var coverPreview: Option<string>
    var selectedSections: seq<string>

    constructor ()
      ensures title == "" && artist == "" && audioFile == None && coverFile == None
      ensures !loading && audioPreview == None && coverPreview == None && selectedSections == []
    {
      title, artist := "", "";
      audioFile, coverFile := None, None;
      loading := false;
      audioPreview, coverPreview := None, None;
      selectedSections := [];
    }

    /** A section button. */
    method Toggle(id: string)
      modifies this
      ensures selectedSections == ToggleSection(old(selectedSections), id)
      ensures title == old(title) && artist == old(artist) && audioFile == old(audioFile) && coverFile == old(coverFile)
      ensures loading == old(loading) && audioPreview == old(audioPreview) && coverPreview == old(coverPreview)
    {
      if id in selectedSections {
        selectedSections := RemoveAll(selectedSections, id);
      } else {
        selectedSections := selectedSections + [id];
      }
    }

    /** `handleFileChange(e, 'audio')`: the preview is the file's name. */
    method ChooseAudio(file: Option<string>)
      modifies this
      ensures audioFile == file
      ensures audioPreview == if file.Some? then file else old(audioPreview)
      ensures coverFile == old(coverFile) && coverPreview == old(coverPreview) && selectedSections == old(selectedSections)
      ensures title == old(title) && artist == old(artist) && loading == old(loading)
    {
      audioFile := file;
      if file.Some? {
        audioPreview := file;
      }
    }

    /** `handleFileChange(e, 'cover')`: the preview is an object URL made for the file. */
    method ChooseCover(file: Option<string>, previewUrl: string)
      modifies this
      ensures coverFile == file
      ensures coverPreview == if file.Some? then Some(previewUrl) else old(coverPreview)
      ensures audioFile == old(audioFile) && audioPreview == old(audioPreview) && selectedSections == old(selectedSections)
      ensures title == old(title) && artist == old(artist) && loading == old(loading)
    {
      coverFile := file;
      if file.Some? {
        coverPreview := Some(previewUrl);
      }
    }

    /** `clearFile`. */
    method ClearFile(audio: bool)
      modifies this
      ensures audio ==> audioFile == None && audioPreview == None && coverFile == old(coverFile) && coverPreview == old(coverPreview)
      ensures !audio ==> coverFile == None && coverPreview == None && audioFile == old(audioFile) && audioPreview == old(audioPreview)
      ensures title == old(title) && artist == old(artist) && loading == old(loading) && selectedSections == old(selectedSections)
    {
      if audio {
        audioFile, audioPreview := None, None;
      } else {
        coverFile, coverPreview := None, None;
      }
    }

    /** `handleSubmit`: nothing happens unless both files are chosen; a successful upload resets
        the form, a failed one keeps it; either way `loading` ends false. */
    method HandleSubmit(uploadOk: bool) returns (request: Option<UploadRequest>)
      modifies this
      ensures old(audioFile).None? || old(coverFile).None? ==>
        request == None && loading == old(loading) &&
        title == old(title) && artist == old(artist) && audioFile == old(audioFile) && coverFile == old(coverFile) &&
        audioPreview == old(audioPreview) && coverPreview == old(coverPreview) && selectedSections == old(selectedSections)
      ensures old(audioFile).Some? && old(coverFile).Some? ==>
        && request == Some(UploadRequest(old(title), old(artist), old(audioFile).value, old(coverFile).value, old(selectedSections)))
        && !loading
      ensures request.Some? && uploadOk ==>
        && title == "" && artist == "" && audioFile == None && coverFile == None
        && audioPreview == None && selectedSections == []
        && coverPreview == (if old(coverPreview).Some? && old(coverPreview).value != "" then None else old(coverPreview))
      ensures request.Some? && !uploadOk ==>
        title == old(title) && artist == old(artist) && audioFile == old(audioFile) && coverFile == old(coverFile) &&
        audioPreview == old(audioPreview) && coverPreview == old(coverPreview) && selectedSections == old(selectedSections)
    {
      if audioFile.None? || coverFile.None? {
        return None;
      }
      loading := true;
      request := Some(UploadRequest(title, artist, audioFile.value, coverFile.value, selectedSections));
      if uploadOk {
        title, artist := "", "";
        audioFile, coverFile := None, None;
        audioPreview := None;
        selectedSections := [];
        if coverPreview.Some? && coverPreview.value != "" {
          coverPreview := None;
        }
      }
      loading := false;
    }

    /** A press of the submit button: the browser's check of the `required` title and artist
        inputs comes first, and only a form that passes it reaches `handleSubmit`. */
    method Submit(uploadOk: bool) returns (request: Option<UploadRequest>)
      modifies this
      ensures request == SubmitRequest(old(title), old(artist), old(audioFile), old(coverFile), old(selectedSections))
      ensures request.None? ==>
        title == old(title) && artist == old(artist) && audioFile == old(audioFile) && coverFile == old(coverFile) &&
        loading == old(loading) && audioPreview == old(audioPreview) && coverPreview == old(coverPreview) &&
        selectedSections == old(selectedSections)
      ensures request.Some? ==> !loading
      ensures request.Some? && uploadOk ==>
        && title == "" && artist == "" && audioFile == None && coverFile == None
        && audioPreview == None && selectedSections == []
        && coverPreview == (if old(coverPreview).Some? && old(coverPreview).value != "" then None else old(coverPreview))
      ensures request.Some? && !uploadOk ==>
        title == old(title) && artist == old(artist) && audioFile == old(audioFile) && coverFile == old(coverFile) &&
        audioPreview == old(audioPreview) && coverPreview == old(coverPreview) && selectedSections == old(selectedSections)
    {
      if title == "" || artist == "" {
        return None;
      }
      request := HandleSubmit(uploadOk);
    }
  }
}
