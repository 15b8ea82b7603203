/** The script-gating rule: pending placeholder scripts are swapped, in
    place, for live scripts once one of their categories is granted. */
module Scripts {
  import opened Options
  import opened Consent
  import CategoryList

  /** The `type` attribute that marks a pending placeholder. */
  const PendingType: string := "fs-cc"

  /** The `type` of the live script that replaces a placeholder. */
  const LiveType: string := "text/javascript"

  /** A node of the page, in document order. A script carries its `type`,
      its optional category attribute, its `src` (empty when absent) and its
      inline text; anything else is an opaque element. */
  datatype Node =
    | Script(scriptType: string, categories: Option<string>, src: string, text: string)
    | Element(tag: string)

  /** ASCII lower-casing: letters `A`-`Z` become `a`-`z`, every other
      character is kept. */
  function AsciiLower(s: string): (t: string)
    ensures |t| == |s|
    ensures forall i :: 0 <= i < |s| ==>
              t[i] == (if 'A' <= s[i] <= 'Z' then (s[i] as int + 32) as char else s[i])
  {
    if |s| == 0 then ""
    else [if 'A' <= s[0] <= 'Z' then (s[0] as int + 32) as char else s[0]] + AsciiLower(s[1..])
  }

  /** A placeholder still waiting for consent. The attribute selector on
      `type` matches ASCII case-insensitively in an HTML document, so
      `FS-CC` marks a placeholder too. */
  predicate IsPending(n: Node)
  {
    n.Script? && AsciiLower(n.scriptType) == PendingType
  }

  /** Upper-case spellings of the placeholder type are placeholders too. */
  lemma UpperCaseTypeIsPending(n: Node)
    requires n.Script? && n.scriptType == "FS-CC"
    ensures IsPending(n)
  {
  }

  /** The live type is no placeholder type, in any spelling. */
  lemma LiveTypeIsNotPending()
    ensures AsciiLower(LiveType) != PendingType
  {
    assert |AsciiLower(LiveType)| != |PendingType|;
  }

  /** The gating categories: the attribute split on commas without trimming,
      or none at all when the attribute is absent. */
  function GatingCategories(n: Node): seq<string>
    requires n.Script?
  {
    match n.categories
    case None => []
    case Some(attr) => CategoryList.Split(attr, CategoryList.Separator)
  }

  /** A node the record activates: a placeholder with a granted category. */
  predicate Activates(r: Record, n: Node)
  {
    IsPending(n) && AnyGranted(r, GatingCategories(n))
  }

  /** The live script built for a placeholder: it takes the `src` when there
      is one and the inline text otherwise, never both. */
  function Live(n: Node): Node
    requires n.Script?
  {
    if n.src != "" then Script(LiveType, None, n.src, "")
    else Script(LiveType, None, "", n.text)
  }

  /** The rule applied to one node. */
  function Gate(r: Record, n: Node): (m: Node)
    ensures m != n <==> Activates(r, n)
    ensures Activates(r, n) ==> m.Script? && !IsPending(m) && m.scriptType == LiveType
    ensures Activates(r, n) && n.src != "" ==> m.src == n.src && m.text == ""
    ensures Activates(r, n) && n.src == "" ==> m.src == "" && m.text == n.text
    ensures !IsPending(m) || m == n
  {
    LiveTypeIsNotPending();
    if Activates(r, n) then Live(n) else n
  }

  /** `applyConsent`: every node of the page passes through the rule, in
      document order. */
  function ApplyConsent(r: Record, page: seq<Node>): (out: seq<Node>)
    ensures |out| == |page|
    ensures forall i :: 0 <= i < |page| ==> out[i] == Gate(r, page[i])
  {
    if |page| == 0 then []
    else [Gate(r, page[0])] + ApplyConsent(r, page[1..])
  }

  /** When a placeholder is activated: some piece of its category attribute,
      taken verbatim, is granted. A placeholder with no attribute never is. */
  lemma ActivatesIff(r: Record, n: Node)
    requires IsPending(n)
    ensures n.categories.None? ==> !Activates(r, n)
    ensures n.categories.Some? ==>
              (Activates(r, n) <==>
                 var parts := CategoryList.Split(n.categories.value, CategoryList.Separator);
                 exists i :: 0 <= i < |parts| && Granted(r, parts[i]))
  {
  }

  /** A placeholder gated on a single category (no comma) is activated
      exactly when that category is granted. */
  lemma SingleCategory(r: Record, n: Node, category: string)
    requires IsPending(n) && n.categories == Some(category)
    requires CategoryList.Separator !in category
    ensures Activates(r, n) <==> Granted(r, category)
  {
    CategoryList.SplitWithoutSeparator(category, CategoryList.Separator);
  }

  /** Pieces are not trimmed: in `"a, b"` the second piece keeps its leading
      space, so the placeholder is activated by granting `a` or `" b"`, and
      granting `b` alone does not activate it. */
  lemma NoTrimming(r: Record, n: Node, a: string, b: string)
    requires IsPending(n) && n.categories == Some(a + ", " + b)
    requires CategoryList.Separator !in a && CategoryList.Separator !in b
    ensures Activates(r, n) <==> Granted(r, a) || Granted(r, " " + b)
  {
    var sep := CategoryList.Separator;
    assert a + ", " + b == a + [sep] + (" " + b);
    assert sep !in " " + b;
    CategoryList.SplitAfterPiece(a, sep, " " + b);
    CategoryList.SplitWithoutSeparator(" " + b, sep);
    var parts := [a, " " + b];
    assert GatingCategories(n) == parts;
    assert parts[1..] == [" " + b] && parts[1..][1..] == [];
    assert AnyGranted(r, parts) == (Granted(r, a) || AnyGranted(r, [" " + b]));
  }

  /** The page keeps its length and order; a node changes exactly when the
      record activates it, and then it becomes a live script at the same
      index; every other node is left as it was. */
  lemma ApplyInPlace(r: Record, page: seq<Node>, i: int)
    requires 0 <= i < |page|
    ensures |ApplyConsent(r, page)| == |page|
    ensures ApplyConsent(r, page)[i] != page[i] <==> Activates(r, page[i])
    ensures !IsPending(page[i]) ==> ApplyConsent(r, page)[i] == page[i]
    ensures Activates(r, page[i]) ==> ApplyConsent(r, page)[i] == Live(page[i])
  {
  }

  /** After applying a record, no placeholder it would activate is left. */
  lemma ApplyLeavesNothingToActivate(r: Record, page: seq<Node>)
    ensures forall i :: 0 <= i < |page| ==> !Activates(r, ApplyConsent(r, page)[i])
  {
  }

  /** Applying the same record twice is applying it once: activated nodes are
      no longer placeholders. */
  lemma ApplyIdempotent(r: Record, page: seq<Node>)
    ensures ApplyConsent(r, ApplyConsent(r, page)) == ApplyConsent(r, page)
  {
  }

  /** `wider` grants every category `narrower` grants. */
  ghost predicate GrantsAtLeast(wider: Record, narrower: Record)
  {
    forall c :: Granted(narrower, c) ==> Granted(wider, c)
  }

  /** A record granting more activates every node a narrower record
      activates. */
  lemma WiderActivatesMore(narrower: Record, wider: Record, n: Node)
    requires GrantsAtLeast(wider, narrower)
    ensures Activates(narrower, n) ==> Activates(wider, n)
  {
  }

  /** Applying a record that grants a superset never undoes an activation:
      every node the narrower record changed is changed the same way by the
      wider one, and applying the wider record after the narrower one is the
      same as applying the wider one alone. */
  lemma ApplyWider(narrower: Record, wider: Record, page: seq<Node>)
    requires GrantsAtLeast(wider, narrower)
    ensures forall i :: 0 <= i < |page| && ApplyConsent(narrower, page)[i] != page[i] ==>
              ApplyConsent(wider, page)[i] == ApplyConsent(narrower, page)[i]
    ensures ApplyConsent(wider, ApplyConsent(narrower, page)) == ApplyConsent(wider, page)
  {
  }

  /** Two records applied in either order give the same page. */
  lemma ApplyCommutes(a: Record, b: Record, page: seq<Node>)
    ensures ApplyConsent(a, ApplyConsent(b, page)) == ApplyConsent(b, ApplyConsent(a, page))
  {
  }

  /** A record that grants nothing leaves the page as it is. */
  lemma ApplyNothingGranted(r: Record, page: seq<Node>)
    requires forall c :: !Granted(r, c)
    ensures ApplyConsent(r, page) == page
  {
  }

  /** Under the `allow` record a placeholder is activated exactly when one of
      its pieces is a known category. */
  lemma AllowActivates(n: Node)
    requires IsPending(n)
    ensures Activates(AllowRecord(), n) <==>
              exists i :: 0 <= i < |GatingCategories(n)| && GatingCategories(n)[i] in Categories
  {
  }

  /** Under the `deny` record a placeholder is activated exactly when one of
      its pieces is `essential`. */
  lemma DenyActivates(n: Node)
    requires IsPending(n)
    ensures Activates(DenyRecord(), n) <==>
              exists i :: 0 <= i < |GatingCategories(n)| && GatingCategories(n)[i] == Essential
  {
  }
}
