# Mango theme: reactive store and Storefront URL handling, in Dafny

This project models two pieces of the Mango Shopify theme front-end and proves
properties of them.

**The reactive store** (`mango_store.dfy`, module `Store`). A `MangoStore`
owns one `ReactiveValue` and an ordered, append-only list of subscriptions.
Each subscription is a (callback, subscriber) pair. `ReactiveValue.Set`
clears the slot, stores the new value, asks the owning store to publish it,
and returns it. `MangoStore.Publish` calls every registered callback in
registration order, with the subscriber as the receiver. Like
`Array.prototype.forEach`, it fixes its range at entry. Callbacks and
subscriber elements are foreign code, so they are opaque handles
(`Callback`, `Element`). Each store keeps a ghost log, `Notifications`, of
the invocations its publishes made. A ghost `History` on each value records
the initial value and every value set since. `FanOut(subs, v)` is the
specification of one publish. It has one invocation per registration, in
order, each bound to its own subscriber and carrying `v`.

**The Storefront client** (`storefront.dfy`, module `Storefronts`).
- Validation tests the raw URL against `/[^.\s]+\.myshopify\.com/`, an
  unanchored search. `IsStorefrontUrl` states the condition directly.
  `Test` performs the regular-expression engine's search, and its contract
  proves that the two agree.
- Normalisation is `replace(/^(https?|ftp):\/\//gm, "")`. `Strip` models
  the scan of the global, multiline replace. `KeptFrom` is an independent
  reference definition: the input with every index inside a line-initial
  scheme prefix removed. `Normalize` is proved equal to it.
- The client is built by `Storefront.Create`. It chooses between the
  argument and the shop's own domain, validates that URL, and stores it
  normalised together with the access token.
- `Fetch` yields the request URL
  `https://<url>/api/<version>/graphql.json`. `ParseEndpointUrl` is proved
  to invert this construction.

`wrappers.dfy` holds the `Option` and `Result` datatypes. A thrown error is a
`Failure` carrying the error's message.

The source's doc comment at `storefront.ts:22` quotes a different pattern
(`[%.\s]+` and `.con`). The model follows the code at `storefront.ts:34`.

## Model

| member | source | states |
|---|---|---|
| Store.MangoStore.constructor | theme/src/scripts/modules/mango-store.ts:7-10 | a new store owns a fresh value whose back-reference is this store and which reads back the initial value; the registry and the log are empty |
| Store.ReactiveValue.constructor | theme/src/scripts/modules/mango-store.ts:35-38 | the value remembers its store and holds the initial value |
| Store.MangoStore.Subscribe | theme/src/scripts/modules/mango-store.ts:12-16 | appends exactly one record at the end; earlier records are unchanged; no de-duplication; nothing else changes |
| Store.MangoStore.Publish | theme/src/scripts/modules/mango-store.ts:18-22 | the log grows by exactly the fan-out of the registrations present at entry; the value and the registry are unchanged |
| Store.FanOut | theme/src/scripts/modules/mango-store.ts:19 | one invocation per registration, at the same position (registration order), bound to that record's subscriber and passing the published value |
| Store.FanOutAppend | theme/src/scripts/modules/mango-store.ts:13-19 | a registration added last is invoked after all earlier ones, which keep their order |
| Store.FanOutCount | theme/src/scripts/modules/mango-store.ts:13-19 | one publish invokes each (callback, subscriber) pair exactly as many times as it was registered |
| Store.ReactiveValue.Get | theme/src/scripts/modules/mango-store.ts:45-47 | reads only the slot; whenever no `Set` is running it returns the last value written (initial or set) |
| Store.ReactiveValue.Set | theme/src/scripts/modules/mango-store.ts:55-62 | returns its argument; afterwards `Get` returns it; the owning store's log grows by one invocation per subscriber, all carrying the new value, before it returns; the registry is unchanged |
| Store.SetNotifiesOnlyItsStore | theme/src/scripts/modules/mango-store.ts:55-59 | setting store A's value notifies A's subscribers only; store B's registry, log and value are unchanged |
| Store.TwoSubscribersScenario | theme/src/scripts/modules/mango-store.ts:12-19 | with C1/S1 then C2/S2 subscribed, setting 5 calls C1 on S1 and then C2 on S2, both with 5, and the value reads 5 |
| Store.NoSubscribersScenario | theme/src/scripts/modules/mango-store.ts:55-61 | with no subscribers, setting a value notifies nobody, does not fail, and the value reads back |
| Storefronts.Test | theme/src/scripts/utils/storefront.ts:34-35 | the regular-expression search accepts exactly when `.myshopify.com` directly follows a character that is neither `.` nor white space or a line terminator |
| Storefronts.Normalize | theme/src/scripts/utils/storefront.ts:42 | the output is the input with every index inside an `http://`, `https://` or `ftp://` prefix beginning a line deleted, and nothing else changed |
| Storefronts.NormalizeUnchangedIff | theme/src/scripts/utils/storefront.ts:42 | normalisation returns the input unchanged if and only if no line of it begins with one of the three scheme prefixes |
| Storefronts.NormalizeDeletesOncePerLine | theme/src/scripts/utils/storefront.ts:42 | only one prefix is deleted per line start: `https://https://x` becomes `https://x` |
| Storefronts.ValidateStorefrontUrl | theme/src/scripts/utils/storefront.ts:33-44 | succeeds exactly when the raw input passes the test, and then returns the normalised input; otherwise fails with the invalid-URL message |
| Storefronts.ValidatesBeforeNormalizing | theme/src/scripts/utils/storefront.ts:34-42 | the test is made on the raw input: `https://.myshopify.com` is accepted and stored as `.myshopify.com`, which would itself be rejected |
| Storefronts.Storefront.constructor | theme/src/scripts/utils/storefront.ts:17-18 | stores the access token as given and a URL that must be the normalised form of a URL that passed validation, so every client is valid |
| Storefronts.Storefront.Create | theme/src/scripts/utils/storefront.ts:16-19 | uses the shop's domain when the argument is absent or empty and the argument otherwise; an invalid URL raises the error and no client exists; a valid one is stored normalised, with the token unchanged, in a client whose invariant records that |
| Storefronts.Storefront.Fetch | theme/src/scripts/utils/storefront.ts:103-104 | the request URL is `https://` + stored URL + `/api/` + version + `/graphql.json`, and it parses back to exactly that URL and version |
| Storefronts.ParseVersionName | theme/src/scripts/types/index.d.ts:24 | each of the six API versions has its own name, which reads back as that version |
| Storefronts.EndpointRoundTrip | theme/src/scripts/utils/storefront.ts:104 | the endpoint URL built from a host and a version parses back to exactly that host and version |
| Storefronts.ParsedEndpointIsBuilt | theme/src/scripts/utils/storefront.ts:104 | a URL that parses is exactly the endpoint URL built from the host and version it parses to |

## Left out

- Re-entrant publishing is not modelled. That covers a callback that calls `Set` or `Subscribe` on a store that is still fanning out. The transient deleted slot inside `Set` is modelled, but only such a callback could observe it.
- What callbacks do and what they return is not modelled. The source discards their results. An exception thrown by a callback would abort delivery to the remaining subscribers; that is not modelled either, and callbacks are treated as returning normally.
- `Store.MangoStore.constructor`: the source's `value` field is public and never reassigned. The model's object invariant `Valid()` assumes no caller reassigns it. The field is nullable only because Dafny cannot pass `this` before the constructor's first phase ends.
- `Storefronts.Storefront.Create`: the source throws from its constructor. Here a static method returns a `Failure` instead of an object. `window.Shopify.shop` is passed in as the parameter `shop`.
- `Storefronts.Storefront.Fetch`: only the request URL is modelled. The `window.fetch` call, the `POST` method, the content-type and access-token headers and the spreading of `init` are network I/O.
- `makeQuery` is a wrapper over `JSON.stringify`, so its behaviour belongs to that library.
- `tailwind-provider.ts` is a stylesheet-sharing base class with no logic. `prettier.config.cjs` is formatter configuration. `index.d.ts` holds declarations only; from it the model takes the record shape and the six API versions.
- `Storefronts.Test`: the greedy `+` with backtracking is modelled as a search that succeeds exactly when some match exists. The engine's order of attempts and the match it reports are not modelled; `test` uses only whether a match exists.
- Strings are sequences of Unicode scalar values, not UTF-16 code units. Every character either pattern names is in the Basic Multilingual Plane, so the outcomes are the same. The `\s` class is written out from the current Unicode space separators.
