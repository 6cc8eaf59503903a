/** What a page does to the browser besides calling the server: alerts, navigation, file previews. */
module Ui {
  /** `alert(message)`, `window.location.href = path` (or `navigate(path)`) and `window.location.reload()`. */
  datatype Event = Alert(message: string) | Navigate(path: string) | Reload

  /** `files.map((f) => URL.createObjectURL(f))`, with the object URL of each file given by `objectUrl`. */
  function Previews(files: seq<int>, objectUrl: int -> string): (r: seq<string>)
    ensures |r| == |files|
    ensures forall i :: 0 <= i < |r| ==> r[i] == objectUrl(files[i])
  {
    if files == [] then [] else [objectUrl(files[0])] + Previews(files[1..], objectUrl)
  }

  /** `{ ...form, [name]: value }` on a form kept as a dictionary of named inputs. */
  ghost predicate ChangedOnly<V>(before: map<string, V>, after: map<string, V>, name: string, value: V) {
    name in after && after[name] == value
    && (forall k :: k != name ==> (k in after <==> k in before))
    && (forall k :: k != name && k in after ==> after[k] == before[k])
  }

  /** Setting the field is the one change `ChangedOnly` allows, and it allows nothing else. */
  lemma {:induction false} ChangedOnlyIsUpdate<V>(before: map<string, V>, after: map<string, V>, name: string, value: V)
    ensures ChangedOnly(before, after, name, value) <==> after == before[name := value]
  {
    if ChangedOnly(before, after, name, value) {
      assert after.Keys == before[name := value].Keys;
    }
  }
}
