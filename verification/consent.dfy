/** Consent records: which categories the visitor granted, and how each
    consent action builds one. */
module Consent {
  import opened Options

  /** A consent record maps a category name to its granted flag. A category
      that is not a key is not granted (the source reads `undefined`). */
  type Record = map<string, bool>

  const Essential: string := "essential"
  const Analytics: string := "analytics"
  const Marketing: string := "marketing"
  const Personalization: string := "personalization"

  /** The four categories the fixed records name. */
  const Categories: seq<string> := [Essential, Analytics, Marketing, Personalization]

  /** A category counts as granted when it is a key mapped to `true`. */
  predicate Granted(r: Record, category: string)
  {
    category in r && r[category]
  }

  /** The value the record holds for a category, if any. */
  function Lookup(r: Record, category: string): Option<bool>
  {
    if category in r then Some(r[category]) else None
  }

  /** `categories.some(cat => consent[cat])`: scans the pieces in order and
      stops at the first granted one. */
  function AnyGranted(r: Record, categories: seq<string>): (b: bool)
    ensures b <==> exists i :: 0 <= i < |categories| && Granted(r, categories[i])
  {
    if |categories| == 0 then false
    else Granted(r, categories[0]) || AnyGranted(r, categories[1..])
  }

  /** The record the `allow` action stores: every known category granted. */
  function AllowRecord(): (r: Record)
    ensures r.Keys == set c | c in Categories
    ensures forall c :: Granted(r, c) <==> c in Categories
  {
    map[Essential := true, Analytics := true, Marketing := true, Personalization := true]
  }

  /** The record the `deny` action stores: only `essential` granted, the
      other known categories present and refused. */
  function DenyRecord(): (r: Record)
    ensures r.Keys == set c | c in Categories
    ensures forall c :: Granted(r, c) <==> c == Essential
  {
    map[Essential := true, Analytics := false, Marketing := false, Personalization := false]
  }

  /** A preference checkbox: the category named by its marker attribute and
      whether it is ticked. */
  datatype Checkbox = Checkbox(category: string, checked: bool)

  /** The categories named by a list of checkboxes. */
  function Named(boxes: seq<Checkbox>): set<string>
  {
    set i | 0 <= i < |boxes| :: boxes[i].category
  }

  /** Writes each checkbox into the record, in document order. */
  function Collect(acc: Record, boxes: seq<Checkbox>): (r: Record)
    ensures r.Keys == acc.Keys + Named(boxes)
    decreases |boxes|
  {
    if |boxes| == 0 then acc
    else
      assert Named(boxes) == {boxes[0].category} + Named(boxes[1..]) by {
        forall c | c in Named(boxes) ensures c in {boxes[0].category} + Named(boxes[1..]) {
          var i :| 0 <= i < |boxes| && boxes[i].category == c;
          if i > 0 { assert boxes[1..][i - 1] == boxes[i]; }
        }
      }
      Collect(acc[boxes[0].category := boxes[0].checked], boxes[1..])
  }

  /** The record the `submit` action stores: it starts from `essential`
      granted and lets every checkbox overwrite its category. */
  function SubmitRecord(boxes: seq<Checkbox>): (r: Record)
    ensures r.Keys == {Essential} + Named(boxes)
  {
    Collect(map[Essential := true], boxes)
  }

  /** Reference reading of the checkboxes: the state of the LAST checkbox
      naming the category, found by scanning from the end. */
  function LastChoice(boxes: seq<Checkbox>, category: string): Option<bool>
    decreases |boxes|
  {
    if |boxes| == 0 then None
    else if boxes[|boxes| - 1].category == category then Some(boxes[|boxes| - 1].checked)
    else LastChoice(boxes[..|boxes| - 1], category)
  }

  /** Writing one more checkbox at the end is one more map update. */
  lemma {:induction false} CollectSnoc(acc: Record, boxes: seq<Checkbox>, b: Checkbox)
    ensures Collect(acc, boxes + [b]) == Collect(acc, boxes)[b.category := b.checked]
    decreases |boxes|
  {
    if |boxes| == 0 {
      assert boxes + [b] == [b];
    } else {
      assert (boxes + [b])[1..] == boxes[1..] + [b];
      CollectSnoc(acc[boxes[0].category := boxes[0].checked], boxes[1..], b);
    }
  }

  /** The left-to-right fold agrees with the reference reading: a category
      named by some checkbox takes the last such checkbox's state, any other
      key keeps its starting value. */
  lemma {:induction false} CollectLookup(acc: Record, boxes: seq<Checkbox>, category: string)
    ensures Lookup(Collect(acc, boxes), category)
         == (match LastChoice(boxes, category)
             case Some(v) => Some(v)
             case None => Lookup(acc, category))
    decreases |boxes|
  {
    if |boxes| != 0 {
      var front := boxes[..|boxes| - 1];
      var b := boxes[|boxes| - 1];
      assert boxes == front + [b];
      CollectSnoc(acc, front, b);
      CollectLookup(acc, front, category);
    }
  }

  /** What `submit` stores for every category: the last checkbox naming it
      wins; `essential` is granted unless a checkbox named `essential`
      overrides it; any other unnamed category is absent. */
  lemma SubmitLookup(boxes: seq<Checkbox>, category: string)
    ensures Lookup(SubmitRecord(boxes), category)
         == (match LastChoice(boxes, category)
             case Some(v) => Some(v)
             case None => if category == Essential then Some(true) else None)
  {
    CollectLookup(map[Essential := true], boxes, category);
  }

  /** The last checkbox naming a category, if any, is found by `LastChoice`. */
  lemma {:induction false} LastChoiceFindsLast(boxes: seq<Checkbox>, category: string)
    ensures LastChoice(boxes, category).None? <==> category !in Named(boxes)
    ensures LastChoice(boxes, category).Some? ==>
              exists i :: 0 <= i < |boxes| && boxes[i].category == category
                && boxes[i].checked == LastChoice(boxes, category).value
                && forall j :: i < j < |boxes| ==> boxes[j].category != category
    decreases |boxes|
  {
    if |boxes| != 0 {
      var n := |boxes| - 1;
      var front := boxes[..n];
      LastChoiceFindsLast(front, category);
      assert Named(boxes) == Named(front) + {boxes[n].category} by {
        forall c | c in Named(boxes) ensures c in Named(front) + {boxes[n].category} {
          var i :| 0 <= i < |boxes| && boxes[i].category == c;
          if i < n { assert front[i] == boxes[i]; }
        }
        forall c | c in Named(front) ensures c in Named(boxes) {
          var i :| 0 <= i < |front| && front[i].category == c;
          assert boxes[i] == front[i];
        }
      }
      if boxes[n].category != category && LastChoice(front, category).Some? {
        var i :| 0 <= i < |front| && front[i].category == category
          && front[i].checked == LastChoice(front, category).value
          && forall j :: i < j < |front| ==> front[j].category != category;
        assert boxes[i] == front[i];
        assert forall j :: i < j < |boxes| ==> boxes[j].category != category by {
          forall j | i < j < |boxes| ensures boxes[j].category != category {
            if j < n { assert boxes[j] == front[j]; }
          }
        }
      }
    }
  }

  /** Without a checkbox named `essential`, `submit` keeps `essential`
      granted. */
  lemma SubmitKeepsEssential(boxes: seq<Checkbox>)
    requires forall i :: 0 <= i < |boxes| ==> boxes[i].category != Essential
    ensures Granted(SubmitRecord(boxes), Essential)
  {
    LastChoiceFindsLast(boxes, Essential);
    SubmitLookup(boxes, Essential);
  }

  /** A checkbox named `essential` that is the last of its name and unticked
      does revoke `essential`: nothing forces it back to granted. */
  lemma SubmitCanRevokeEssential(boxes: seq<Checkbox>)
    requires |boxes| >= 1
    requires boxes[|boxes| - 1] == Checkbox(Essential, false)
    ensures !Granted(SubmitRecord(boxes), Essential)
  {
    SubmitLookup(boxes, Essential);
  }
}
