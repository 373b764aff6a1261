# useAllModels reconciliation, modelled in Dafny

This project models the reconciliation step of the `useAllModels` React hook of a
ChatGPT-Next-Web fork (`app/utils/hooks.ts`). The hook fetches a remote catalog of
models (`/api/openai/v1/models`). It then recomputes, in a `useMemo` callback, the
arguments it hands to the model-merging collaborator `collectModelsWithDefaultModel`:

- **Conversion.** Each remote `ModelData` record becomes a candidate model. `name` comes
  from `id` and `available` from `active`. The provider's `id`, `providerName` and
  `providerType` all come from `owned_by`, and the provider's `sorted` is 1. A counter
  that starts at 1000 and is post-incremented per record gives each candidate its `sorted`.
- **Default resolution.** A truthy `accessStore.defaultModel` is kept. Otherwise the
  candidates are searched (`find`) for `"llama-3.3-70b-versatile"`, which becomes the
  default when present. When it is absent the falsy configured value is passed on unchanged.
- **Custom-model join.** `configStore.customModels` and `accessStore.customModels` are
  joined with one comma, in that order.

Files:

- `wrappers.dfy`: module `Wrappers`, the `Option` type for settings that may be `undefined`.
- `comma_list.dfy`: module `CommaList`. JavaScript's `Array.prototype.join` (`Join`) and
  `String.prototype.split(",")` (`Split`). The lemmas say what the two-part join produces
  and that join and split are inverse.
- `hooks.dfy`: module `Hooks`. The data model, then the conversion (`Convert`, a recursive
  function with an explicit starting counter). Then `FindByName` (the `find`),
  `ResolveDefault` and `CustomModelsSpec`. `ReconcileInputs` composes them into the
  collaborator's three arguments. `MemoBody` is the callback written step by step, with the
  mutable counter and the reassigned default, and is proved equal to `ReconcileInputs`.
  `AllModels` takes `collectModelsWithDefaultModel` as a function parameter `collect`.
  No behaviour of `collect` is assumed.

The stores are plain parameters: `AccessStore` holds `customModels` and `defaultModel`, and
`AppConfig` holds `customModels`. `defaultModel` is an `Option<string>`. `None` stands for
`undefined`. `None` and `Some("")` are the falsy values (`Truthy`).

## Model

| member | source | states |
|---|---|---|
| `Hooks.ToCandidate` | app/utils/hooks.ts:54-63 | the object literal built per record: the three provider fields agree, provider.sorted is 1, sorted is the counter value, and id, owned_by and active can be read back from the candidate |
| `Hooks.Convert` | app/utils/hooks.ts:54-64 | the converted list has exactly one entry per remote record |
| `Hooks.ConvertAt` | app/utils/hooks.ts:53-64 | entry i is the conversion of record i and carries counter value start + i, so order is preserved |
| `Hooks.ConvertFields` | app/utils/hooks.ts:55-63 | for every entry: name = id, available = active; provider id, providerName and providerType = owned_by; provider.sorted = 1; sorted = start + i |
| `Hooks.ConvertSortedIncreasing` | app/utils/hooks.ts:53-63 | the `sorted` values rise strictly with position, so they are pairwise distinct, and the first is the starting value |
| `Hooks.ConvertHasName` | app/utils/hooks.ts:54-64 | a name occurs among the converted entries if and only if it is the id of some remote record |
| `Hooks.FindByName` | app/utils/hooks.ts:69-71 | `find` returns nothing exactly when no entry has the name; otherwise it returns an entry with that name, and no entry before it has that name |
| `Hooks.ResolveDefault` | app/utils/hooks.ts:67-75 | a truthy configured default is kept whatever the list holds; a falsy one becomes the preferred name when some entry has it, and stays the same falsy value when none does |
| `Hooks.DefaultFromCatalog` | app/utils/hooks.ts:66-75 | on the converted catalog the resolved default is either the configured value or the preferred name, and it is truthy exactly when the configured value is truthy or some remote id is the preferred name |
| `Hooks.CustomModelsSpec` | app/utils/hooks.ts:80 | the local-spec string is the config store's custom models, exactly one comma, then the access store's custom models, even when either is empty; its comma segments are those of the first followed by those of the second |
| `Hooks.ReconcileInputs` | app/utils/hooks.ts:51-82 | the reference definition of the callback's three arguments: one model per remote record, config and access custom models joined by one comma, and a default that is either the configured value or the preferred name |
| `Hooks.ReconcileInputsSpec` | app/utils/hooks.ts:51-82 | the three arguments handed to the collaborator: entry i converted from record i with sorted 1000 + i, the joined custom models, and the default chosen by the fallback rule from the remote ids |
| `Hooks.MemoBody` | app/utils/hooks.ts:51-82 | the callback with its post-incremented counter and reassigned default computes exactly the arguments `ReconcileInputs` specifies |
| `Hooks.AllModels` | app/utils/hooks.ts:78-82 | the hook's result (line 91) is `collectModelsWithDefaultModel`, passed in as `collect`, applied to the converted catalog, the comma-joined custom models and the resolved default |
| `Hooks.AllModelsBeforeFetch` | app/utils/hooks.ts:78-82 | while `apiModels` is still the initial `[]`, the collaborator receives no candidates, the joined custom models and the configured default unchanged, so no preferred default appears |
| `CommaList.Join` | app/utils/hooks.ts:80 | JavaScript `Array.prototype.join`: a single part joins to itself, and the first part is always a prefix of the result (the two-part case is stated by `JoinPair`) |
| `CommaList.JoinPair` | app/utils/hooks.ts:80 | `[a, b].join(sep)` is a, sep, b, so its length is the sum of the three lengths |
| `CommaList.SplitAppend` | app/utils/hooks.ts:80 | splitting a + "," + b on commas yields the segments of a followed by the segments of b |
| `CommaList.JoinSplit` | app/utils/hooks.ts:80 | general property of JavaScript `join`/`split(",")`, not specific to line 80: joining the comma segments of any string with commas gives the string back |
| `CommaList.SplitJoin` | app/utils/hooks.ts:80 | general property of JavaScript `join`/`split(",")`, not specific to line 80 (the settings joined there may hold commas themselves): splitting the comma-join of a non-empty list of comma-free parts gives the parts back |

## Left out

- The network fetch, the host-based URL choice on `window.location.hostname` and the JSON parsing of the response (app/utils/hooks.ts:28-39). These are I/O and browser environment. The model takes the resulting `apiModels` as a parameter.
- The `AbortController` cancellation, the suppression of `AbortError` and the `console.error` logging (app/utils/hooks.ts:27, 40-48). These are asynchronous lifecycle and diagnostics.
- The React machinery: `useState`, `useEffect`, `useMemo` and its dependency list (app/utils/hooks.ts:21-25, 83-89). The model recomputes from its inputs on every call. The dependency on `configStore.models`, which the callback never reads, has no counterpart.
- The store singletons `useAccessStore` and `useAppConfig` (app/utils/hooks.ts:22-23). They are passed as the plain values `AccessStore` and `AppConfig`.
- The behaviour of `collectModelsWithDefaultModel` (imported from `./model`, which is not part of this model). `AllModels` takes it as an uninterpreted function parameter. Nothing is claimed about its parsing of the spec string, its override rules or its default flagging. `Split` is only the plain comma reading of the joined string. It states what the join preserves and is not a model of that collaborator.
- The fields `object`, `created`, `context_window` and `public_apps` of `ModelData` (app/utils/hooks.ts:7-8, 11-12). The callback never reads them.
- `Hooks.MemoBody`: the copy `[...apiModelIds]` is modelled as the same sequence value, because Dafny sequences are values and array identity is not observable here.
- `Hooks.ConvertFields`: the counter is an unbounded integer. JavaScript numbers lose integer precision above 2^53, which no realistic catalog reaches.
- Exclusion filters and built-in fallback entries. The code has no exclusion filter, no fallback entries and no second provider counter: the provider `sorted` is the constant 1 (app/utils/hooks.ts:61). The model adds none of them.
- A remote record whose `id` is empty is still emitted, as app/utils/hooks.ts:54-64 does; `Convert` gives it the name "". No filter on empty names exists in the code or the model.
- `apiModels` is assumed to be an array of records with string `id` and `owned_by` and boolean `active`, as the `ModelData` interface declares (app/utils/hooks.ts:5-13). The reply is cast unchecked at app/utils/hooks.ts:38-39. A reply without a `data` array leaves `apiModels` undefined, and `apiModels.map` at app/utils/hooks.ts:54 then throws on the next render. A record missing `id` or `active` gives an entry whose `name` or `available` is undefined. The model's types rule out both cases, so neither the throw nor the undefined fields are modelled.
