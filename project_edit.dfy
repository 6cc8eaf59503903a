/** The project editor (pages/AdminProjectEdit.js). */
module ProjectEdit {
  import opened Wrappers
  import opened Ui

  /** `pathname.split("/").pop()`: the text after the last '/', or all of it when there is none. */
  function LastSegment(path: string): (r: string)
    ensures '/' !in r
    ensures |r| <= |path| && r == path[|path| - |r|..]
    ensures |r| < |path| ==> path[|path| - |r| - 1] == '/'
  {
    if path == [] then ""
    else if path[|path| - 1] == '/' then ""
    else LastSegment(path[..|path| - 1]) + [path[|path| - 1]]
  }

  /** The id of `/admin/project/edit/<id>` is `<id>`, whatever comes before the last '/'. */
  lemma {:induction false} SegmentAfterSlash(prefix: string, segment: string)
    requires '/' !in segment
    ensures LastSegment(prefix + "/" + segment) == segment
  {
    if segment == [] {
      assert (prefix + "/" + segment)[|prefix + "/" + segment| - 1] == '/';
    } else {
      var last := segment[|segment| - 1];
      var init := segment[..|segment| - 1];
      assert prefix + "/" + segment == (prefix + "/" + init) + [last];
      assert (prefix + "/" + init + [last])[..|prefix + "/" + segment| - 1] == prefix + "/" + init;
      SegmentAfterSlash(prefix, init);
      assert init + [last] == segment;
    }
  }

  /** A trailing slash leaves an empty id. */
  lemma {:induction false} TrailingSlash(path: string)
    requires path != [] && path[|path| - 1] == '/'
    ensures LastSegment(path) == ""
  {
  }

  datatype Call = UpdateProject(id: string, form: map<string, string>) | UploadProjectImages(id: string, files: seq<int>)

  class ProjectEditPage {
    const id: string
    var form: map<string, string>
    var newImages: seq<int>
    var previewNew: seq<string>

    /** The page mounted at `pathname`: the form is `{}` until `loadProject` has answered. */
    constructor (pathname: string)
      ensures id == LastSegment(pathname) && '/' !in id
      ensures form == map[] && newImages == [] && previewNew == []
    {
      id := LastSegment(pathname);
      form := map[];
      newImages := [];
      previewNew := [];
    }

    /**
     * `loadProject` once `getProjectById(id)` has answered: the answer becomes
     * the form. The fetch has no `catch`, so a failure raises no alert and the
     * form keeps what it held (`{}` when nothing was loaded), which `HandleSave`
     * would then send.
     */
    method LoadProject(answer: Remote<map<string, string>>)
      modifies this
      ensures answer.Ok? ==> form == answer.value
      ensures answer.Failed? ==> form == old(form)
      ensures newImages == old(newImages) && previewNew == old(previewNew)
    {
      if answer.Ok? {
        form := answer.value;
      }
    }

    method HandleChange(name: string, value: string)
      modifies this
      ensures ChangedOnly(old(form), form, name, value)
      ensures newImages == old(newImages) && previewNew == old(previewNew)
    {
      form := form[name := value];
    }

    /** `handleNewImages`: the chosen files replace the staged ones, with one preview per file. */
    method HandleNewImages(files: seq<int>, objectUrl: int -> string)
      modifies this
      ensures newImages == files && |previewNew| == |newImages|
      ensures forall i :: 0 <= i < |previewNew| ==> previewNew[i] == objectUrl(newImages[i])
      ensures form == old(form)
    {
      newImages := files;
      previewNew := Previews(files, objectUrl);
    }

    /** `handleSave`: update, then upload the staged files if there are any; any failure gives one message. */
    method HandleSave(updateAnswer: Remote<()>, uploadAnswer: Remote<()>)
      returns (calls: seq<Call>, events: seq<Event>)
      ensures 1 <= |calls| <= 2 && calls[0] == UpdateProject(id, form)
      ensures |calls| == 2 <==> updateAnswer.Ok? && newImages != []
      ensures |calls| == 2 ==> calls[1] == UploadProjectImages(id, newImages)
      ensures events == [Alert("Project updated successfully!"), Reload]
              <==> updateAnswer.Ok? && (newImages == [] || uploadAnswer.Ok?)
      ensures events == [Alert("Project updated successfully!"), Reload]
              || events == [Alert("Failed to update project")]
    {
      calls := [UpdateProject(id, form)];
      if updateAnswer.Failed? {
        events := [Alert("Failed to update project")];
        return;
      }
      if |newImages| > 0 {
        calls := calls + [UploadProjectImages(id, newImages)];
        if uploadAnswer.Failed? {
          events := [Alert("Failed to update project")];
          return;
        }
      }
      events := [Alert("Project updated successfully!"), Reload];
    }
  }
}
