/** The admin dashboard (pages/AdminDashboard.js): six totals and the count-up animation of each card. */
module Dashboard {
  import opened Wrappers
  import opened Lists
  import opened Listing
  import AdminProperties

  function StatusFn(s: string): Property -> bool {
    p => HasStatus(p, s)
  }

  /** `list.filter((p) => p.status === s).length`. */
  function StatusCount(list: seq<Property>, s: string): (r: nat)
    ensures r <= |list|
  {
    CountWhere(list, StatusFn(s))
  }

  /** Counting by two different statuses counts disjoint sets of listings. */
  lemma {:induction false} DistinctStatusesAddUp(list: seq<Property>, a: string, b: string, c: string)
    requires a != b && b != c && a != c
    ensures StatusCount(list, a) + StatusCount(list, b) + StatusCount(list, c) <= |list|
  {
    if list != [] {
      DistinctStatusesAddUp(list[1..], a, b, c);
    }
  }

  /** `totalElements ?? content?.length ?? data?.length ?? 0` over the enquiry answer. */
  function EnquiryCount(b: Body<Enquiry>): (r: int)
    ensures r < 0 ==> b.Page? && b.totalElements == Some(r)
  {
    match b
    case Page(_, _, Some(total)) => total
    case Page(Some(c), _, None) => |c|
    case Page(None, _, None) => 0
    case Items(xs) => |xs|
    case NoData => 0
  }

  /** The dashboard and the property table agree on how many enquiries an answer holds. */
  lemma {:induction false} EnquiryCountsAgree(b: Body<Enquiry>)
    ensures EnquiryCount(b) == AdminProperties.EnquiryCountOf(Ok(b))
  {
  }

  datatype Counts = Counts(
    properties: nat,
    projects: Option<nat>,
    pending: nat,
    approved: nat,
    rejected: nat,
    enquiries: int)

  /**
   * `loadStats`: the three requests in order; any failure, or a property answer
   * whose list is a page object without `content` (its `filter` throws), ends in
   * the catch with no totals. A project page without `content` has no length:
   * its total is absent.
   */
  function LoadStats(props: Remote<Body<Property>>, enquiries: Remote<Body<Enquiry>>, projects: Remote<Body<Project>>): (r: Option<Counts>)
    ensures r.Some? <==> props.Ok? && ContentOrData(props.value).Some? && enquiries.Ok? && projects.Ok?
    ensures r.Some? ==> r.value.properties == |Rows(props.value)|
    ensures r.Some? ==> r.value.pending + r.value.approved + r.value.rejected <= r.value.properties
    ensures r.Some? ==> r.value.enquiries == AdminProperties.EnquiryCountOf(enquiries)
    ensures r.Some? ==> (r.value.projects.Some? <==> ContentOrData(projects.value).Some?)
  {
    if props.Failed? || ContentOrData(props.value).None? || enquiries.Failed? || projects.Failed? then None
    else
      var list := ContentOrData(props.value).value;
      ReadingsAgree(props.value);
      DistinctStatusesAddUp(list, "pending", "approved", "rejected");
      EnquiryCountsAgree(enquiries.value);
      var projectList := ContentOrData(projects.value);
      Some(Counts(|list|,
                  if projectList.Some? then Some(|projectList.value|) else None,
                  StatusCount(list, "pending"), StatusCount(list, "approved"), StatusCount(list, "rejected"),
                  EnquiryCount(enquiries.value)))
  }

  // ------------------------------------------------ count-up animation

  /** `Math.ceil(t / 40)`; the divisor is positive, so the floor division of Dafny is JavaScript's floor. */
  function CeilDiv40(t: int): (r: int)
    ensures 40 * r >= t && 40 * (r - 1) < t
  {
    if t % 40 == 0 then t / 40 else t / 40 + 1
  }

  /** `Math.max(1, Math.ceil(target / 40))`. */
  function Step(target: int): (r: int)
    ensures r >= 1
    ensures target > 0 ==> 40 * r >= target
  {
    if CeilDiv40(target) < 1 then 1 else CeilDiv40(target)
  }

  /**
   * The values `animate` hands to the card, one per timer tick: the step, then
   * each previous value plus the step while below the target, then the target
   * itself, after which the timer is cleared. A positive target is reached
   * within 40 ticks.
   */
  method Animate(target: int) returns (frames: seq<int>)
    ensures |frames| >= 1 && frames[|frames| - 1] == target
    ensures |frames| > 1 ==> frames[0] == Step(target)
    ensures forall i :: 0 <= i < |frames| - 2 ==> frames[i + 1] == frames[i] + Step(target)
    ensures forall i :: 0 <= i < |frames| - 1 ==> frames[i] == (i + 1) * Step(target)
    ensures forall i :: 0 <= i < |frames| - 1 ==> frames[i] < target
    ensures target <= |frames| * Step(target)
    ensures forall i, j :: 0 <= i < j < |frames| ==> frames[i] < frames[j]
    ensures target <= 1 ==> frames == [target]
    ensures target > 0 ==> |frames| <= 40
  {
    var step := Step(target);
    var current := 0;
    frames := [];
    while true
      invariant frames == [] ==> current == 0
      invariant frames != [] ==> current == frames[|frames| - 1] && current < target
      invariant |frames| > 0 ==> frames[0] == step
      invariant forall i :: 0 <= i < |frames| - 1 ==> frames[i + 1] == frames[i] + step
      invariant forall i :: 0 <= i < |frames| ==> frames[i] == (i + 1) * step
      invariant current == |frames| * step
      invariant forall i :: 0 <= i < |frames| ==> frames[i] < target
      invariant target > 0 ==> current >= |frames| * step && |frames| < 40
      decreases target - current
    {
      MulStep(|frames|, step);
      current := current + step;
      if current >= target {
        current := target;
        frames := frames + [current];
        ChainIncreases(frames);
        return;
      }
      frames := frames + [current];
      FewerThanForty(|frames|, step, target);
    }
  }

  /** Each frame above the one before makes every frame above all earlier ones. */
  lemma {:induction false} ChainIncreases(s: seq<int>)
    requires forall i :: 0 <= i < |s| - 1 ==> s[i] < s[i + 1]
    ensures forall i, j :: 0 <= i < j < |s| ==> s[i] < s[j]
  {
    if |s| > 1 {
      var p := s[..|s| - 1];
      ChainIncreases(p);
      forall i, j | 0 <= i < j < |s|
        ensures s[i] < s[j]
      {
        if j < |s| - 1 {
          assert s[i] == p[i] && s[j] == p[j];
        } else if i < |s| - 2 {
          assert s[i] == p[i] && s[|s| - 2] == p[|s| - 2];
        }
      }
    }
  }

  lemma {:induction false} MulStep(k: nat, step: int)
    ensures (k + 1) * step == k * step + step
  {
  }

  lemma {:induction false} FewerThanForty(k: nat, step: int, target: int)
    requires step >= 1 && 40 * step >= target && k * step < target
    ensures k < 40
  {
    if k >= 40 {
      MulMonotone(k, 40, step);
    }
  }

  lemma {:induction false} MulMonotone(a: int, b: int, c: int)
    requires a >= b && c >= 0
    ensures a * c >= b * c
  {
    assert a * c == b * c + (a - b) * c;
  }
}
