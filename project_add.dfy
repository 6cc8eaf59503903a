/** The "Add New Project" admin form (pages/AdminProjectAdd.js). */
module ProjectAdd {
  import opened Wrappers
  import opened Ui

  datatype Call = CreateProject(form: map<string, string>) | UploadProjectImages(projectId: int, files: seq<int>)

  function InitialForm(): map<string, string> {
    map["title" := "", "description" := "", "location" := "", "priceRange" := "",
        "priceBigint" := "", "type" := "", "status" := "UPCOMING"]
  }

  class ProjectAddPage {
    var form: map<string, string>
    var images: seq<int>
    var preview: seq<string>

    constructor ()
      ensures form == InitialForm() && images == [] && preview == []
    {
      form := InitialForm();
      images := [];
      preview := [];
    }

    /** `handleChange`: the named input takes the typed value; nothing else changes. */
    method HandleChange(name: string, value: string)
      modifies this
      ensures ChangedOnly(old(form), form, name, value)
      ensures images == old(images) && preview == old(preview)
    {
      form := form[name := value];
    }

    /** `handleImageSelect`: the chosen files replace the staged ones, with one preview per file. */
    method HandleImageSelect(files: seq<int>, objectUrl: int -> string)
      modifies this
      ensures images == files && |preview| == |images|
      ensures forall i :: 0 <= i < |preview| ==> preview[i] == objectUrl(images[i])
      ensures form == old(form)
    {
      images := files;
      preview := Previews(files, objectUrl);
    }

    /**
     * `handleSubmit`. The answer to the create call is the returned `data?.id`
     * (absent when the body has none); an absent or zero id is a failure. The
     * upload is made only for a real id and a non-empty selection, after the
     * create; any failure ends in the one failure message.
     */
    method HandleSubmit(createAnswer: Remote<Option<int>>, uploadAnswer: Remote<()>)
      returns (calls: seq<Call>, events: seq<Event>)
      ensures 1 <= |calls| <= 2 && calls[0] == CreateProject(form)
      ensures |calls| == 2 <==> createAnswer.Ok? && createAnswer.value.Some? && createAnswer.value.value != 0 && images != []
      ensures |calls| == 2 ==> calls[1] == UploadProjectImages(createAnswer.value.value, images)
      ensures events == [Alert("Project created successfully!"), Navigate("/admin/projects")]
              <==> createAnswer.Ok? && createAnswer.value.Some? && createAnswer.value.value != 0
                   && (images == [] || uploadAnswer.Ok?)
      ensures events == [Alert("Project created successfully!"), Navigate("/admin/projects")]
              || events == [Alert("Failed to create project")]
    {
      calls := [CreateProject(form)];
      if createAnswer.Failed? {
        events := [Alert("Failed to create project")];
        return;
      }
      var newProjectId := createAnswer.value;
      if newProjectId.None? || newProjectId.value == 0 {
        events := [Alert("Failed to create project")];
        return;
      }
      if |images| > 0 {
        calls := calls + [UploadProjectImages(newProjectId.value, images)];
        if uploadAnswer.Failed? {
          events := [Alert("Failed to create project")];
          return;
        }
      }
      events := [Alert("Project created successfully!"), Navigate("/admin/projects")];
    }
  }
}
