/**
 * The contact-method settings screen: three independent lists (SMS numbers, e-mail addresses,
 * phone-call numbers), one of them shown in the editor according to the route's method.
 */
module ManageContactMethod {
  import opened Wrappers
  import opened JsText
  import opened ContactMethodManager

  datatype Method = Sms | Email | Call

  /** The route parameter: "email" and "call" pick their lists, anything else, or none, picks SMS. */
  function MethodOf(param: Option<string>): (m: Method)
    ensures m == Email <==> param == Some("email")
    ensures m == Call <==> param == Some("call")
  {
    if param == Some("email") then Email
    else if param == Some("call") then Call
    else Sms
  }

  datatype ContactLists = ContactLists(phones: seq<string>, emails: seq<string>, calls: seq<string>)

  /** The lists the screen starts with. */
  const InitialLists := ContactLists(["+92 333 222 1110"], ["saniakhan@gmail.com"], ["+92 300 000 0000"])

  /** `[v, ...p]` */
  function Prepended(p: seq<string>, v: string): (r: seq<string>)
    ensures |r| == |p| + 1 && r[0] == v && r[1..] == p
  {
    [v] + p
  }

  /** `p.map((x, idx) => idx === i ? v : x)` */
  function Replaced(p: seq<string>, i: int, v: string): (r: seq<string>)
    ensures |r| == |p|
    ensures 0 <= i < |p| ==> r[i] == v
    ensures forall j :: 0 <= j < |p| && j != i ==> r[j] == p[j]
  {
    seq(|p|, j requires 0 <= j < |p| => if j == i then v else p[j])
  }

  /** An index outside the list changes nothing. */
  lemma ReplacedOutside(p: seq<string>, i: int, v: string)
    requires !(0 <= i < |p|)
    ensures Replaced(p, i, v) == p
  {
  }

  /** The list the editor shows for a method. */
  function Shown(ls: ContactLists, m: Method): seq<string> {
    match m
    case Email => ls.emails
    case Call => ls.calls
    case Sms => ls.phones
  }

  /** The shown list with one callback of the editor applied. */
  function Applied(p: seq<string>, c: Callback): seq<string> {
    match c
    case OnAdd(v) => Prepended(p, v)
    case OnEdit(i, v) => Replaced(p, i, v)
  }

  /** The lists after one callback: only the list of the method changes. */
  function AfterCallback(ls: ContactLists, m: Method, c: Callback): (r: ContactLists)
    ensures Shown(r, m) == Applied(Shown(ls, m), c)
    ensures m != Sms ==> r.phones == ls.phones
    ensures m != Email ==> r.emails == ls.emails
    ensures m != Call ==> r.calls == ls.calls
  {
    match m
    case Email => ls.(emails := Applied(ls.emails, c))
    case Call => ls.(calls := Applied(ls.calls, c))
    case Sms => ls.(phones := Applied(ls.phones, c))
  }

  /** The lists after a sequence of callbacks, in order. */
  function AfterCallbacks(ls: ContactLists, m: Method, cs: seq<Callback>): ContactLists
    decreases |cs|
  {
    if cs == [] then ls else AfterCallbacks(AfterCallback(ls, m, cs[0]), m, cs[1..])
  }

  /** However many saves the editor makes, the lists of the other two methods stay as they were. */
  lemma {:induction false} OtherListsUntouched(ls: ContactLists, m: Method, cs: seq<Callback>)
    ensures var r := AfterCallbacks(ls, m, cs);
            (m != Sms ==> r.phones == ls.phones) && (m != Email ==> r.emails == ls.emails) &&
            (m != Call ==> r.calls == ls.calls)
    decreases |cs|
  {
    if cs != [] {
      OtherListsUntouched(AfterCallback(ls, m, cs[0]), m, cs[1..]);
    }
  }

  /** The number of adds among the callbacks. */
  function AddCount(cs: seq<Callback>): (n: nat)
    ensures n <= |cs|
    decreases |cs|
  {
    if cs == [] then 0 else (if cs[0].OnAdd? then 1 else 0) + AddCount(cs[1..])
  }

  /** Each add makes the shown list one longer and each edit keeps its length. */
  lemma {:induction false} ShownLength(ls: ContactLists, m: Method, cs: seq<Callback>)
    ensures |Shown(AfterCallbacks(ls, m, cs), m)| == |Shown(ls, m)| + AddCount(cs)
    decreases |cs|
  {
    if cs != [] {
      ShownLength(AfterCallback(ls, m, cs[0]), m, cs[1..]);
    }
  }

  /**
   * One save of the editor on this screen: in add mode the trimmed draft goes first in the shown
   * list, in edit mode it replaces the edited entry, and a blank draft leaves the list alone.
   */
  lemma SaveUpdatesShownList(ls: ContactLists, m: Method, editingIndex: Option<int>, draft: string)
    ensures var after := Shown(AfterCallbacks(ls, m, SaveCallbacks(editingIndex, draft)), m);
            (IsBlank(draft) ==> after == Shown(ls, m)) &&
            (!IsBlank(draft) && editingIndex == Some(AddMode) ==> after == [Trim(draft)] + Shown(ls, m)) &&
            (!IsBlank(draft) && editingIndex.Some? && 0 <= editingIndex.value < |Shown(ls, m)| ==>
               |after| == |Shown(ls, m)| && after[editingIndex.value] == Trim(draft))
  {
    var cs := SaveCallbacks(editingIndex, draft);
    if cs != [] {
      assert cs[1..] == [];
    }
  }
}
