/** The admin project page (pages/AdminProjectView.js): four actions, each with its own busy flag. */
module ProjectView {
  import opened Wrappers
  import opened Text
  import opened Ui
  import opened Listing

  /** The four buttons; the image ones are per image, the status one per target status. */
  datatype Action = DeleteProject | DeleteImage(imageId: int) | ReplaceImage(imageId: int) | ChangeStatus(newStatus: string)

  /** The key of the action's flag in `loadingAction`. */
  function KeyName(a: Action): string {
    match a
    case DeleteProject => "delete_project"
    case DeleteImage(i) => "delete_img_" + IntToString(i)
    case ReplaceImage(i) => "replace_img_" + IntToString(i)
    case ChangeStatus(s) => "status_" + s
  }

  lemma {:induction false} SameSuffix(p: string, x: string, y: string)
    requires p + x == p + y
    ensures x == y
  {
    assert x == (p + x)[|p|..];
    assert y == (p + y)[|p|..];
  }

  /** Different actions, or one action on different images, never share a flag. */
  lemma {:induction false} KeyNameInjective(a: Action, b: Action)
    ensures KeyName(a) == KeyName(b) ==> a == b
  {
    if KeyName(a) == KeyName(b) {
      var k := KeyName(a);
      match a
      case DeleteProject =>
        assert k[0] == 'd' && k[7] == 'p';
        assert b.DeleteProject?;
      case DeleteImage(i) =>
        assert k[0] == 'd' && k[7] == 'i';
        assert b.DeleteImage?;
        SameSuffix("delete_img_", IntToString(i), IntToString(b.imageId));
        IntToStringInjective(i, b.imageId);
      case ReplaceImage(i) =>
        assert k[0] == 'r';
        assert b.ReplaceImage?;
        SameSuffix("replace_img_", IntToString(i), IntToString(b.imageId));
        IntToStringInjective(i, b.imageId);
      case ChangeStatus(s) =>
        assert k[0] == 's';
        assert b.ChangeStatus?;
        SameSuffix("status_", s, b.newStatus);
    }
  }

  /** `loadingAction[key]`, with a missing key read as false. */
  function Busy(flags: map<string, bool>, key: string): bool {
    key in flags && flags[key]
  }

  /** A started action, with the file the replace button was given. */
  datatype Pending = Pending(action: Action, file: int)

  datatype Call =
    | DeleteProjectCall(id: string)
    | DeleteImageCall(imageId: int)
    | ReplaceImageCall(imageId: int, file: int)
    | UpdateStatusCall(id: string, status: string)
    | GetProjectImages(id: string)
    | GetProject(id: string)

  class ProjectViewPage {
    const id: string
    var project: Option<Project>
    var images: seq<Image>
    var loadingAction: map<string, bool>

    /** Mounted for `id`: nothing loaded yet (the page shows its loading text), no flag set. */
    constructor (id: string)
      ensures this.id == id && project == None && images == [] && loadingAction == map[]
    {
      this.id := id;
      project := None;
      images := [];
      loadingAction := map[];
    }

    /** `loadProject`, on mount and after a status change: a failure alerts and keeps what was shown. */
    method LoadProject(answer: Remote<Project>) returns (events: seq<Event>)
      modifies this
      ensures answer.Ok? ==> project == Some(answer.value) && events == []
      ensures answer.Failed? ==> project == old(project) && events == [Alert("Failed to load project")]
      ensures images == old(images) && loadingAction == old(loadingAction)
    {
      if answer.Ok? {
        project := Some(answer.value);
        events := [];
      } else {
        events := [Alert("Failed to load project")];
      }
    }

    /** `loadImages`, on mount and after an image changed: a failure is only logged. */
    method LoadImages(answer: Remote<seq<Image>>)
      modifies this
      ensures answer.Ok? ==> images == answer.value
      ensures answer.Failed? ==> images == old(images)
      ensures project == old(project) && loadingAction == old(loadingAction)
    {
      if answer.Ok? {
        images := answer.value;
      }
    }

    /** `setBtnLoading`: the one flag is set, every other flag stays as it was. */
    method SetBtnLoading(key: string, value: bool)
      modifies this
      ensures ChangedOnly(old(loadingAction), loadingAction, key, value)
      ensures project == old(project) && images == old(images)
    {
      loadingAction := loadingAction[key := value];
    }

    /**
     * A click, up to the await. The replace button first needs a file; then
     * each handler returns if its own flag is set; the two delete buttons
     * then ask for confirmation (`asked`), and go on only if it is given.
     * Going on means raising the action's flag; stopping changes nothing.
     */
    method Begin(action: Action, file: Option<int>, confirmed: bool) returns (asked: bool, pending: Option<Pending>)
      modifies this
      ensures asked <==> (action.DeleteProject? || action.DeleteImage?) && !Busy(old(loadingAction), KeyName(action))
      ensures pending.Some? <==>
                !Busy(old(loadingAction), KeyName(action))
                && (action.ReplaceImage? ==> file.Some?)
                && (asked ==> confirmed)
      ensures pending.Some? ==> pending.value.action == action && (action.ReplaceImage? ==> pending.value.file == file.value)
      ensures pending.Some? ==> ChangedOnly(old(loadingAction), loadingAction, KeyName(action), true)
      ensures pending.None? ==> loadingAction == old(loadingAction)
      ensures project == old(project) && images == old(images)
    {
      asked := false;
      if action.ReplaceImage? && file.None? {
        return asked, None;
      }
      var key := KeyName(action);
      if Busy(loadingAction, key) {
        return asked, None;
      }
      if action.DeleteProject? || action.DeleteImage? {
        asked := true;
        if !confirmed {
          return asked, None;
        }
      }
      SetBtnLoading(key, true);
      pending := Some(Pending(action, if file.Some? then file.value else 0));
    }

    /**
     * The remote call, what follows it, and the `finally`: the action's flag
     * is lowered whatever the outcome, and no other flag changes.
     */
    method Finish(p: Pending, answer: Remote<()>) returns (calls: seq<Call>, events: seq<Event>)
      modifies this
      ensures ChangedOnly(old(loadingAction), loadingAction, KeyName(p.action), false)
      ensures project == old(project) && images == old(images)
      ensures p.action == DeleteProject ==>
                calls == [DeleteProjectCall(id)]
                && events == if answer.Ok? then [Alert("Project Deleted"), Navigate("/admin/projects")]
                             else [Alert("Failed to delete project")]
      ensures p.action.DeleteImage? ==>
                calls == [DeleteImageCall(p.action.imageId)] + (if answer.Ok? then [GetProjectImages(id)] else [])
                && events == if answer.Ok? then [] else [Alert("Failed to delete image")]
      ensures p.action.ReplaceImage? ==>
                calls == [ReplaceImageCall(p.action.imageId, p.file)] + (if answer.Ok? then [GetProjectImages(id)] else [])
                && events == if answer.Ok? then [] else [Alert("Failed to replace image")]
      ensures p.action.ChangeStatus? ==>
                calls == [UpdateStatusCall(id, p.action.newStatus)] + (if answer.Ok? then [GetProject(id)] else [])
                && events == if answer.Ok? then [Alert("Status Updated")] else [Alert("Failed to update status")]
    {
      match p.action {
      case DeleteProject =>
        calls := [DeleteProjectCall(id)];
        events := if answer.Ok? then [Alert("Project Deleted"), Navigate("/admin/projects")]
                  else [Alert("Failed to delete project")];
      case DeleteImage(i) =>
        calls := [DeleteImageCall(i)];
        if answer.Ok? {
          calls := calls + [GetProjectImages(id)];
          events := [];
        } else {
          events := [Alert("Failed to delete image")];
        }
      case ReplaceImage(i) =>
        calls := [ReplaceImageCall(i, p.file)];
        if answer.Ok? {
          calls := calls + [GetProjectImages(id)];
          events := [];
        } else {
          events := [Alert("Failed to replace image")];
        }
      case ChangeStatus(s) =>
        calls := [UpdateStatusCall(id, s)];
        if answer.Ok? {
          calls := calls + [GetProject(id)];
          events := [Alert("Status Updated")];
        } else {
          events := [Alert("Failed to update status")];
        }
      }
      SetBtnLoading(KeyName(p.action), false);
    }
  }

  /** Starting or finishing one action leaves the flag of every other action as it was. */
  lemma {:induction false} OtherActionsUnaffected(before: map<string, bool>, after: map<string, bool>, a: Action, value: bool, b: Action)
    requires ChangedOnly(before, after, KeyName(a), value)
    requires a != b
    ensures Busy(after, KeyName(b)) == Busy(before, KeyName(b))
  {
    KeyNameInjective(a, b);
  }
}
