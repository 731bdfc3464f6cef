/**
 * The walker-selection rule of the JSON-Schema engine
 * (json/src/com/jetbrains/jsonSchema/impl/JsonLikePsiWalker.java).
 *
 * A walker adapts one JSON-like syntax (plain JSON, JSON5, configuration
 * languages of the same shape) to the schema engine. `GetWalker` picks one
 * for a syntax-tree element: the canonical JSON walker if it handles the
 * element, otherwise the first walker, in registration order, created by a
 * registered factory for the given schema that handles it, otherwise none.
 */
module JsonLikePsiWalkers {
  import opened Wrappers

  /** A node of a parsed document; its structure belongs to the parser. */
  type PsiElement
  /** The schema the walker is wanted for; passed to factories unexamined. */
  type JsonSchemaObject
  /** One navigation step (object key or array index) of the schema engine. */
  type Step
  /** A view of a key/value pair in the document. */
  type JsonPropertyAdapter
  /** A view of an object, array or scalar value in the document. */
  type JsonValueAdapter

  /**
   * The walker capability interface, one field per interface method.
   * Only `handles` takes part in selection; the other members are the
   * syntax-specific queries a walker answers once selected, and they stay
   * uninterpreted here.
   */
  datatype JsonLikePsiWalker = JsonLikePsiWalker(
    handles: PsiElement -> bool,
    isName: PsiElement -> bool,
    isPropertyWithValue: PsiElement -> bool,
    goUpToCheckable: PsiElement -> PsiElement,
    findPosition: (PsiElement, bool, bool) -> seq<Step>,
    isNameQuoted: bool,
    onlyDoubleQuotesForStringLiterals: bool,
    hasPropertiesBehindAndNoComma: PsiElement -> bool,
    getPropertyNamesOfParentObject: PsiElement -> set<string>,
    getParentPropertyAdapter: PsiElement -> Option<JsonPropertyAdapter>,
    isTopJsonElement: PsiElement -> bool,
    createValueAdapter: PsiElement -> Option<JsonValueAdapter>)

  /** A registered extension that builds a walker for a schema. */
  datatype JsonLikePsiWalkerFactory =
    JsonLikePsiWalkerFactory(create: JsonSchemaObject -> JsonLikePsiWalker)

  /**
   * The walkers the registered factories build for `schemaObject`, in
   * registration order (the stream's `map` step).
   */
  function CreateAll(factories: seq<JsonLikePsiWalkerFactory>, schemaObject: JsonSchemaObject)
    : (walkers: seq<JsonLikePsiWalker>)
    ensures |walkers| == |factories|
    ensures forall i :: 0 <= i < |factories| ==> walkers[i] == factories[i].create(schemaObject)
  {
    if factories == [] then []
    else [factories[0].create(schemaObject)] + CreateAll(factories[1..], schemaObject)
  }

  /** The walkers that handle `element`, in their original order (the stream's `filter` step). */
  function Handling(walkers: seq<JsonLikePsiWalker>, element: PsiElement): (r: seq<JsonLikePsiWalker>)
    ensures |r| <= |walkers|
    ensures forall w :: w in r ==> w in walkers && w.handles(element)
    ensures forall i :: 0 <= i < |walkers| && walkers[i].handles(element) ==> walkers[i] in r
    ensures r == [] <==> forall i :: 0 <= i < |walkers| ==> !walkers[i].handles(element)
  {
    if walkers == [] then []
    else if walkers[0].handles(element) then [walkers[0]] + Handling(walkers[1..], element)
    else Handling(walkers[1..], element)
  }

  /**
   * Selects the walker for `element` and `schemaObject`. `original` is the
   * canonical JSON walker, the interface constant JSON_ORIGINAL_PSI_WALKER;
   * `factories` are the registered extensions in registration order.
   */
  function GetWalker(element: PsiElement, schemaObject: JsonSchemaObject,
                     original: JsonLikePsiWalker, factories: seq<JsonLikePsiWalkerFactory>)
    : (r: Option<JsonLikePsiWalker>)
    ensures original.handles(element) ==> r == Some(original)
    ensures r.Some? ==> r.value.handles(element)
    ensures r.Some? && r.value != original ==>
      exists i :: 0 <= i < |factories| && r.value == factories[i].create(schemaObject)
    ensures r.None? <==>
      !original.handles(element) &&
      forall i :: 0 <= i < |factories| ==> !factories[i].create(schemaObject).handles(element)
  {
    if original.handles(element) then Some(original)
    else
      // `findFirst` then `orElse(null)`: the head of the filtered walkers, if any
      var handling := Handling(CreateAll(factories, schemaObject), element);
      if handling == [] then None else Some(handling[0])
  }

  /**
   * Factory `i` is the first one whose walker, built for `schemaObject`,
   * handles `element`.
   */
  ghost predicate FirstHandlingFactory(factories: seq<JsonLikePsiWalkerFactory>, schemaObject: JsonSchemaObject,
                                       element: PsiElement, i: int)
  {
    && 0 <= i < |factories|
    && factories[i].create(schemaObject).handles(element)
    && forall j :: 0 <= j < i ==> !factories[j].create(schemaObject).handles(element)
  }

  /** The head of `Handling` is the first walker that handles the element. */
  lemma {:induction false} HandlingHead(walkers: seq<JsonLikePsiWalker>, element: PsiElement, i: int)
    requires 0 <= i < |walkers| && walkers[i].handles(element)
    requires forall j :: 0 <= j < i ==> !walkers[j].handles(element)
    ensures Handling(walkers, element) != [] && Handling(walkers, element)[0] == walkers[i]
  {
    if i > 0 {
      HandlingHead(walkers[1..], element, i - 1);
    }
  }

  /** Every walker that handles the element is preceded by a first one that does. */
  lemma {:induction false} FirstHandlingExists(factories: seq<JsonLikePsiWalkerFactory>, schemaObject: JsonSchemaObject,
                                               element: PsiElement, k: int)
    returns (i: int)
    requires 0 <= k < |factories| && factories[k].create(schemaObject).handles(element)
    ensures FirstHandlingFactory(factories, schemaObject, element, i)
    ensures i <= k
  {
    if factories[0].create(schemaObject).handles(element) {
      i := 0;
    } else {
      var j := FirstHandlingExists(factories[1..], schemaObject, element, k - 1);
      i := j + 1;
      forall m | 0 <= m < i
        ensures !factories[m].create(schemaObject).handles(element)
      {
        if m > 0 {
          assert factories[m] == factories[1..][m - 1];
        }
      }
    }
  }

  /**
   * Canonical priority: when the canonical walker handles the element it is
   * the result, whatever factories are registered and whatever they build.
   */
  lemma OriginalWins(element: PsiElement, schemaObject: JsonSchemaObject, original: JsonLikePsiWalker,
                     factories: seq<JsonLikePsiWalkerFactory>, others: seq<JsonLikePsiWalkerFactory>)
    requires original.handles(element)
    ensures GetWalker(element, schemaObject, original, factories) == Some(original)
    ensures GetWalker(element, schemaObject, original, factories)
         == GetWalker(element, schemaObject, original, others)
  {
  }

  /**
   * First match: when the canonical walker declines, the walker of the
   * lowest-index factory that handles the element is selected.
   */
  lemma FirstHandlingIsSelected(element: PsiElement, schemaObject: JsonSchemaObject, original: JsonLikePsiWalker,
                                factories: seq<JsonLikePsiWalkerFactory>, i: int)
    requires !original.handles(element)
    requires FirstHandlingFactory(factories, schemaObject, element, i)
    ensures GetWalker(element, schemaObject, original, factories) == Some(factories[i].create(schemaObject))
  {
    HandlingHead(CreateAll(factories, schemaObject), element, i);
  }

  /**
   * Conversely, a selected walker that is not the canonical one comes from
   * the first factory whose walker handles the element: every factory
   * registered before it builds a walker that does not.
   */
  lemma SelectedIsFirstHandling(element: PsiElement, schemaObject: JsonSchemaObject, original: JsonLikePsiWalker,
                                factories: seq<JsonLikePsiWalkerFactory>)
    returns (i: int)
    requires !original.handles(element)
    requires GetWalker(element, schemaObject, original, factories).Some?
    ensures FirstHandlingFactory(factories, schemaObject, element, i)
    ensures GetWalker(element, schemaObject, original, factories) == Some(factories[i].create(schemaObject))
  {
    var k :| 0 <= k < |factories| && factories[k].create(schemaObject).handles(element);
    i := FirstHandlingExists(factories, schemaObject, element, k);
    FirstHandlingIsSelected(element, schemaObject, original, factories, i);
  }

  /** With no factories registered only the canonical walker can be selected. */
  lemma NoFactoriesRegistered(element: PsiElement, schemaObject: JsonSchemaObject, original: JsonLikePsiWalker)
    ensures GetWalker(element, schemaObject, original, [])
         == if original.handles(element) then Some(original) else None
  {
  }

  /**
   * The choice depends only on the element, the canonical walker and the
   * walkers the factories build, in order: two registrations whose factories
   * build the same walkers for their schemas select the same walker.
   */
  lemma {:induction false} DependsOnlyOnCreatedWalkers(element: PsiElement, original: JsonLikePsiWalker,
                                                       schema1: JsonSchemaObject, factories1: seq<JsonLikePsiWalkerFactory>,
                                                       schema2: JsonSchemaObject, factories2: seq<JsonLikePsiWalkerFactory>)
    requires |factories1| == |factories2|
    requires forall i :: 0 <= i < |factories1| ==> factories1[i].create(schema1) == factories2[i].create(schema2)
    ensures GetWalker(element, schema1, original, factories1) == GetWalker(element, schema2, original, factories2)
  {
    assert CreateAll(factories1, schema1) == CreateAll(factories2, schema2);
  }

  /** Building walkers (the `map` step) distributes over concatenating registrations. */
  lemma {:induction false} CreateAllAppend(fs: seq<JsonLikePsiWalkerFactory>, gs: seq<JsonLikePsiWalkerFactory>,
                                           schemaObject: JsonSchemaObject)
    ensures CreateAll(fs + gs, schemaObject) == CreateAll(fs, schemaObject) + CreateAll(gs, schemaObject)
  {
    assert |CreateAll(fs + gs, schemaObject)| == |CreateAll(fs, schemaObject) + CreateAll(gs, schemaObject)|;
    forall i | 0 <= i < |fs + gs|
      ensures CreateAll(fs + gs, schemaObject)[i] == (CreateAll(fs, schemaObject) + CreateAll(gs, schemaObject))[i]
    {
      if i >= |fs| {
        assert (fs + gs)[i] == gs[i - |fs|];
      }
    }
  }

  /** Keeping the handling walkers (the `filter` step) distributes over concatenation. */
  lemma {:induction false} HandlingAppend(vs: seq<JsonLikePsiWalker>, ws: seq<JsonLikePsiWalker>, element: PsiElement)
    ensures Handling(vs + ws, element) == Handling(vs, element) + Handling(ws, element)
  {
    if vs != [] {
      assert (vs + ws)[1..] == vs[1..] + ws;
      HandlingAppend(vs[1..], ws, element);
    } else {
      assert vs + ws == ws;
    }
  }

  /**
   * Factories registered after one whose walker handles the element are
   * never consulted: appending registrations keeps a present result.
   */
  lemma LaterRegistrationsIgnored(element: PsiElement, schemaObject: JsonSchemaObject, original: JsonLikePsiWalker,
                                  factories: seq<JsonLikePsiWalkerFactory>, later: seq<JsonLikePsiWalkerFactory>)
    requires GetWalker(element, schemaObject, original, factories).Some?
    ensures GetWalker(element, schemaObject, original, factories + later)
         == GetWalker(element, schemaObject, original, factories)
  {
    CreateAllAppend(factories, later, schemaObject);
    HandlingAppend(CreateAll(factories, schemaObject), CreateAll(later, schemaObject), element);
  }

  /**
   * Factories registered before the others whose walkers all decline the
   * element make no difference to the result.
   */
  lemma EarlierDecliningRegistrationsIgnored(element: PsiElement, schemaObject: JsonSchemaObject,
                                             original: JsonLikePsiWalker,
                                             earlier: seq<JsonLikePsiWalkerFactory>, factories: seq<JsonLikePsiWalkerFactory>)
    requires GetWalker(element, schemaObject, original, earlier).None?
    ensures GetWalker(element, schemaObject, original, earlier + factories)
         == GetWalker(element, schemaObject, original, factories)
  {
    CreateAllAppend(earlier, factories, schemaObject);
    HandlingAppend(CreateAll(earlier, schemaObject), CreateAll(factories, schemaObject), element);
  }
}
