# Walker selection for the JSON-Schema engine

The JSON-Schema engine of the IDE serves several JSON-like syntaxes (plain
JSON, JSON5 and configuration languages of the same shape) through one
capability interface, `JsonLikePsiWalker`. A walker answers the
syntax-specific questions the schema engine asks about a syntax-tree element.
The interface's static `getWalker` chooses the walker for an element and a
schema:

1. if the canonical JSON walker (`JSON_ORIGINAL_PSI_WALKER`) handles the
   element, it is the result;
2. otherwise every registered `JsonLikePsiWalkerFactory` builds a walker for
   the schema, in registration order, and the first of those walkers that
   handles the element is the result;
3. otherwise the result is `null`.

This project models that rule in Dafny (`json_like_psi_walker.dfy`, module
`JsonLikePsiWalkers`, with `Option` in `wrappers.dfy`) and proves canonical
priority, first-match selection, soundness, completeness, dependence on the
schema only through the walkers built for it, and how the result behaves
when registrations are added.

Modelling choices:

- `PsiElement`, `JsonSchemaObject`, the schema engine's `Step` and the two
  adapter types are opaque types.
- A walker is a datatype value with one field per interface method. Only
  `handles` takes part in selection. The other members stay uninterpreted
  functions.
- A factory is a datatype holding its `create` function.
- The extension registry is the explicit ordered sequence `factories`.
- The canonical walker is the parameter `original`, because its class,
  `JsonOriginalPsiWalker`, is not part of this model.
- The stream steps `map` and `filter` become `CreateAll` and `Handling`.
  `findFirst` then `orElse(null)` becomes the head of `Handling`'s result
  inside `GetWalker`, and `null` becomes `None`.
- Selection is a function, so it is deterministic by construction.

## Model

| member | source | states |
|---|---|---|
| JsonLikePsiWalkers.CreateAll | json/src/com/jetbrains/jsonSchema/impl/JsonLikePsiWalker.java:49-50 | one walker per registered factory, in registration order, each built by that factory from the same schema object |
| JsonLikePsiWalkers.Handling | json/src/com/jetbrains/jsonSchema/impl/JsonLikePsiWalker.java:51 | a walker is kept if and only if it is one of the candidates and handles the element; nothing is kept exactly when no candidate handles it; the order of what is kept is pinned at the head by `HandlingHead` and over concatenation by `HandlingAppend` |
| JsonLikePsiWalkers.GetWalker | json/src/com/jetbrains/jsonSchema/impl/JsonLikePsiWalker.java:46-54 | the canonical walker is returned whenever it handles the element; any result handles the element; a non-canonical result was built by a registered factory for the given schema; the result is absent exactly when neither the canonical walker nor any factory's walker handles the element |
| JsonLikePsiWalkers.HandlingHead | json/src/com/jetbrains/jsonSchema/impl/JsonLikePsiWalker.java:51-52 | the first walker kept by the filter is the lowest-index candidate that handles the element |
| JsonLikePsiWalkers.FirstHandlingExists | json/src/com/jetbrains/jsonSchema/impl/JsonLikePsiWalker.java:49-52 | if some factory's walker handles the element, a lowest-index such factory exists, at or before it |
| JsonLikePsiWalkers.OriginalWins | json/src/com/jetbrains/jsonSchema/impl/JsonLikePsiWalker.java:47 | when the canonical walker handles the element, the result is the canonical walker for every factory registration |
| JsonLikePsiWalkers.FirstHandlingIsSelected | json/src/com/jetbrains/jsonSchema/impl/JsonLikePsiWalker.java:49-52 | when the canonical walker declines, the walker of the lowest-index factory that handles the element is the result |
| JsonLikePsiWalkers.SelectedIsFirstHandling | json/src/com/jetbrains/jsonSchema/impl/JsonLikePsiWalker.java:49-52 | when the canonical walker declines, a present result comes from the first handling factory, and every earlier factory's walker fails `handles` |
| JsonLikePsiWalkers.NoFactoriesRegistered | json/src/com/jetbrains/jsonSchema/impl/JsonLikePsiWalker.java:47-53 | with no factories registered, the result is the canonical walker if it handles the element and absent otherwise |
| JsonLikePsiWalkers.DependsOnlyOnCreatedWalkers | json/src/com/jetbrains/jsonSchema/impl/JsonLikePsiWalker.java:50 | two registrations whose factories build pointwise equal walkers for their schemas give the same result |
| JsonLikePsiWalkers.LaterRegistrationsIgnored | json/src/com/jetbrains/jsonSchema/impl/JsonLikePsiWalker.java:52 | appending factories after a registration that already yields a walker does not change the result |
| JsonLikePsiWalkers.EarlierDecliningRegistrationsIgnored | json/src/com/jetbrains/jsonSchema/impl/JsonLikePsiWalker.java:51-53 | prepending factories whose walkers all decline the element, when the canonical walker also declines it, does not change the result |

## Left out

- JsonLikePsiWalkers.Handling: its contract does not state that every kept walker stays in its original relative order. `HandlingHead` proves the head is the first handling walker, and that is all `findFirst` observes. `HandlingAppend` proves the filter distributes over concatenation.
- The walker members other than `handles`: `isName`, `isPropertyWithValue`, `goUpToCheckable`, `findPosition`, `isNameQuoted`, `onlyDoubleQuotesForStringLiterals`, `hasPropertiesBehindAndNoComma`, `getPropertyNamesOfParentObject`, `getParentPropertyAdapter`, `isTopJsonElement` and `createValueAdapter`. They are only declared in the interface (JsonLikePsiWalker.java:34-44). Their implementations (`JsonOriginalPsiWalker`, `JsonSchemaVariantsTreeBuilder.Step`) are not part of this model, so they are uninterpreted fields of the walker datatype.
- The behaviour of the canonical walker's `handles`. `JsonOriginalPsiWalker` is not part of this model, so the canonical walker is a parameter.
- Plugin discovery through `Extensions.getExtensions` (JsonLikePsiWalker.java:49). This is a global runtime registry, so it becomes an explicit ordered sequence of factories.
- Laziness of the Java stream. The stream builds walkers only up to the first match. Here `CreateAll` builds every walker. The two agree because a factory's `create` is modelled as a side-effect-free total function.
- A factory returning `null`. The Java code would then fail with a null-pointer exception in `handles`. Here `create` always yields a walker.
- `platform/platform-impl/src/org/jetbrains/io/Responses.java`. It builds HTTP responses and writes them to network channels, which is I/O plumbing.
- `plugins/groovy/src/org/jetbrains/plugins/groovy/annotator/ConfigureGroovyLibraryNotificationProvider.java`. It is editor-notification UI and IDE plumbing.
- `python/psi-api/src/com/jetbrains/python/psi/PyParameter.java`. It is a syntax-tree accessor interface. Its one default method compares against a constant defined in a file that is not part of this model.
