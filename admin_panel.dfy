/**
 * Model of src/app/admin/page.tsx: the admin verification panel.
 *
 * The list updaters handed to `setProperties` are pure functions on the
 * listing sequence (a `map` that sets `verified` on the matching id and a
 * `filter` that drops it). The click handlers are methods of the page state:
 * the outcome of `window.confirm` and whether the response was ok are
 * parameters, and the requests and alerts a handler issues are returned as a
 * sequence of effects in the order the handler issues them.
 */
module AdminPanel {

  /** The page's own `Property` type (what the admin list endpoint returns). */
  datatype Property = Property(
    id: string,
    propertyCode: string,
    title: string,
    location: string,
    purpose: string,
    verified: bool)

  /** What a handler does outside the page state. */
  datatype Effect =
    | AskConfirm(question: string)
    | PostVerify(id: string)
    | PostDelete(id: string)
    | Alert(message: string)

  /** The buttons rendered for one listing. */
  datatype Action = VerifyButton | DeleteButton

  const ConfirmQuestion: string := "Are you sure you want to permanently delete this property?"
  const VerifyFailed: string := "Failed to verify property"
  const DeleteFailed: string := "Failed to delete property"

  // ---------------------------------------------------------------------------
  // The updaters
  // ---------------------------------------------------------------------------

  /** `p.id === id ? { ...p, verified: true } : p` */
  function VerifyEntry(p: Property, id: string): (r: Property)
    ensures r.verified == (p.verified || p.id == id)
    ensures r == p.(verified := r.verified)
  {
    if p.id == id then p.(verified := true) else p
  }

  /** `prev.map(p => p.id === id ? { ...p, verified: true } : p)` */
  function MarkVerified(list: seq<Property>, id: string): (r: seq<Property>)
    ensures |r| == |list|
  {
    if list == [] then [] else [VerifyEntry(list[0], id)] + MarkVerified(list[1..], id)
  }

  /** `prev.filter(p => p.id !== id)` */
  function WithoutId(list: seq<Property>, id: string): (r: seq<Property>)
    ensures |r| <= |list|
  {
    if list == [] then []
    else if list[0].id == id then WithoutId(list[1..], id)
    else [list[0]] + WithoutId(list[1..], id)
  }

  /** Verify is shown only while the listing is pending; Delete always. */
  function Actions(p: Property): (r: set<Action>)
    ensures DeleteButton in r
    ensures VerifyButton in r <==> !p.verified
  {
    if p.verified then {DeleteButton} else {VerifyButton, DeleteButton}
  }

  // ---------------------------------------------------------------------------
  // Properties of the verify updater
  // ---------------------------------------------------------------------------

  /**
   * Length and order are kept; an entry ends verified iff it was verified or
   * has the id; only the `verified` field of a matching entry changes.
   */
  lemma {:induction false} MarkVerifiedSpec(list: seq<Property>, id: string)
    ensures |MarkVerified(list, id)| == |list|
    ensures forall i :: 0 <= i < |list| ==>
      MarkVerified(list, id)[i].verified == (list[i].verified || list[i].id == id) &&
      MarkVerified(list, id)[i].(verified := list[i].verified) == list[i]
    ensures forall i :: 0 <= i < |list| && list[i].id != id ==> MarkVerified(list, id)[i] == list[i]
  {
    if list != [] {
      MarkVerifiedSpec(list[1..], id);
      var r := MarkVerified(list, id);
      forall i | 1 <= i < |list|
        ensures r[i] == MarkVerified(list[1..], id)[i - 1] && list[i] == list[1..][i - 1]
      {
      }
    }
  }

  /** Applying the verify updater twice is the same as applying it once. */
  lemma {:induction false} MarkVerifiedIdempotent(list: seq<Property>, id: string)
    ensures MarkVerified(MarkVerified(list, id), id) == MarkVerified(list, id)
  {
    if list != [] {
      var r := MarkVerified(list, id);
      assert r[0] == VerifyEntry(list[0], id) && r[1..] == MarkVerified(list[1..], id);
      MarkVerifiedIdempotent(list[1..], id);
    }
  }

  /** When every entry with the id is already verified, the updater changes nothing. */
  lemma {:induction false} MarkVerifiedNoChange(list: seq<Property>, id: string)
    requires forall i :: 0 <= i < |list| && list[i].id == id ==> list[i].verified
    ensures MarkVerified(list, id) == list
  {
    if list != [] {
      MarkVerifiedNoChange(list[1..], id);
      assert list == [list[0]] + list[1..];
    }
  }

  /** After verifying, no entry with the id still offers Verify; the other entries offer what they did. */
  lemma VerifyHidesButton(list: seq<Property>, id: string)
    ensures |MarkVerified(list, id)| == |list|
    ensures forall i :: 0 <= i < |list| ==>
      Actions(MarkVerified(list, id)[i]) ==
        (if list[i].id == id then {DeleteButton} else Actions(list[i]))
  {
  }

  // ---------------------------------------------------------------------------
  // Properties of the delete updater
  // ---------------------------------------------------------------------------

  /** The survivors are exactly the other entries, each as often as before, and nothing with the id is left. */
  lemma {:induction false} WithoutIdMembers(list: seq<Property>, id: string)
    ensures forall p :: p in WithoutId(list, id) <==> p in list && p.id != id
    ensures forall p :: multiset(WithoutId(list, id))[p] == if p.id == id then 0 else multiset(list)[p]
  {
    if list != [] {
      WithoutIdMembers(list[1..], id);
      assert list == [list[0]] + list[1..];
      assert multiset(list) == multiset{list[0]} + multiset(list[1..]);
    }
  }

  /** Filtering distributes over concatenation: the survivors keep their relative order. */
  lemma {:induction false} WithoutIdConcat(a: seq<Property>, b: seq<Property>, id: string)
    ensures WithoutId(a + b, id) == WithoutId(a, id) + WithoutId(b, id)
  {
    if a == [] {
      assert a + b == b;
    } else {
      assert (a + b)[0] == a[0] && (a + b)[1..] == a[1..] + b;
      WithoutIdConcat(a[1..], b, id);
    }
  }

  /** A list with no entry of that id is left as it is. */
  lemma {:induction false} WithoutIdAbsent(list: seq<Property>, id: string)
    requires forall i :: 0 <= i < |list| ==> list[i].id != id
    ensures WithoutId(list, id) == list
  {
    if list != [] {
      WithoutIdAbsent(list[1..], id);
      assert list == [list[0]] + list[1..];
    }
  }

  /** Deleting the same id twice is the same as deleting it once. */
  lemma WithoutIdIdempotent(list: seq<Property>, id: string)
    ensures WithoutId(WithoutId(list, id), id) == WithoutId(list, id)
  {
  }

  // ---------------------------------------------------------------------------
  // The page state and its click handlers
  // ---------------------------------------------------------------------------

  /** The panel after its initial load: the `properties` state of the component. */
  class AdminPage {
    var properties: seq<Property>

    constructor (loaded: seq<Property>)
      ensures properties == loaded
    {
      properties := loaded;
    }

    /** `verifyProperty(id)`: post the id; on an ok response mark it verified, otherwise alert. */
    method VerifyProperty(id: string, responseOk: bool) returns (effects: seq<Effect>)
      modifies this
      ensures responseOk ==> properties == MarkVerified(old(properties), id) && effects == [PostVerify(id)]
      ensures !responseOk ==> properties == old(properties) && effects == [PostVerify(id), Alert(VerifyFailed)]
    {
      effects := [PostVerify(id)];
      if responseOk {
        properties := MarkVerified(properties, id);
      } else {
        effects := effects + [Alert(VerifyFailed)];
      }
    }

    /** `deleteProperty(id)`: ask first; only when confirmed post the id; on an ok response drop it. */
    method DeleteProperty(id: string, confirmed: bool, responseOk: bool) returns (effects: seq<Effect>)
      modifies this
      ensures !confirmed ==> properties == old(properties) && effects == [AskConfirm(ConfirmQuestion)]
      ensures confirmed && responseOk ==>
        properties == WithoutId(old(properties), id) &&
        effects == [AskConfirm(ConfirmQuestion), PostDelete(id)]
      ensures confirmed && !responseOk ==>
        properties == old(properties) &&
        effects == [AskConfirm(ConfirmQuestion), PostDelete(id), Alert(DeleteFailed)]
    {
      effects := [AskConfirm(ConfirmQuestion)];
      if !confirmed {
        return;
      }
      effects := effects + [PostDelete(id)];
      if responseOk {
        properties := WithoutId(properties, id);
      } else {
        effects := effects + [Alert(DeleteFailed)];
      }
    }
  }
}
