# Scanner core: documents, observer registry and selection cache

This project is a Dafny model of the sequential state logic in the document-scanning app "Scanner". The rest of the app is presentation code. The model covers three parts:

- **Documents** (`documents.dfy`, from `Scanner/Scanner/DocumentStore.swift`)
  - `Page` and `Document` are reference objects, and their `==` is object identity.
  - A document holds a constant back-reference to its `DocumentStore` and an ordered list of pages.
  - That list grows only through `createPage`, which appends a new page.
  - The store's failable initializer checks whether anything exists at the store path and, if nothing does, creates the directory there. It gives no store only when nothing exists at the path and the directory cannot be created. Anything already at the path, even a plain file, lets the store be made without a creation attempt.
  - A new store starts with an empty list of documents.
- **View-model observers** (`view_models.dfy`, from `Scanner/Scanner/ViewModel.swift`)
  - The registry is a list of observer tokens, compared by identity.
  - `addObserver` appends a new token.
  - `removeObserver` looks the token up with `find` and force-unwraps the result, so an unregistered token is a caller error. It then removes the token at that index.
  - `notifyObservers` calls `viewModelChanged` once on every registered observer, in registration order.
- **Workflow** (`workflows.dfy`, from `Scanner/Scanner/Workflow.swift`)
  - The workflow is the cache of the selected document and the selected page.
  - Both start out nil.
  - Each has its own setter.

`array_ops.dfy` models the Swift array operations these rely on: `find` as a linear search, `removeAtIndex`, and appending. It also holds the "no object twice" shape that the lists keep.

Identity equality is Dafny's reference equality. So "the new page or token is distinct from every earlier one" follows from `fresh`. Each method that appends states it explicitly through the source's `==`, modelled once as `IdentityEquals`.

The store's back-reference is a `const` field, so no operation can change it after construction.

`Document`'s initializer is private, and nothing in `DocumentStore.swift` calls it. So in this revision a store's `documents` list stays empty. The model keeps the `Valid` invariant on that list anyway: no duplicates, and every document points back at the store.

The code in this revision has no change tracking, catalog codec, blob repository or deferred deletion. The model follows the code and leaves these out; see "Left out".

## Model

| member | source | states |
|---|---|---|
| ArrayOps.FirstIndex | Scanner/Scanner/ViewModel.swift:38 | the index `find` reports when the element is present: it holds the element, and no earlier index does |
| ArrayOps.Find | Scanner/Scanner/ViewModel.swift:38 | the linear search answers nil exactly when the element is absent; otherwise it answers the first index holding it |
| ArrayOps.RemoveAt | Scanner/Scanner/ViewModel.swift:38 | `removeAtIndex` gives one element fewer; elements before the index keep their positions and later ones shift down by one, so the relative order is kept |
| ArrayOps.RemoveFirstMultiset | Scanner/Scanner/ViewModel.swift:38 | removing the found token takes out exactly one copy of it and leaves every other element's count unchanged |
| ArrayOps.RemoveFirstOfDistinct | Scanner/Scanner/ViewModel.swift:38 | in a list without duplicates, the removed element is gone, the list stays duplicate-free, and every other element is still present |
| ArrayOps.AppendFreshIsDistinct | Scanner/Scanner/ViewModel.swift:33 | appending an object not yet in the list keeps the list free of duplicates |
| ArrayOps.IdentityEqualsIsEquivalence | Scanner/Scanner/DocumentStore.swift:14-16 | the `==` declared as `===` (for pages here, and alike for documents at DocumentStore.swift:34-36 and tokens at ViewModel.swift:49-51) is reflexive, symmetric and transitive, and distinct objects are never equal |
| Documents.Document.constructor | Scanner/Scanner/DocumentStore.swift:18-25 | a new document has the given store as its back-reference and no pages |
| Documents.Document.CreatePage | Scanner/Scanner/DocumentStore.swift:27-31 | the page list grows by exactly one; the returned page is fresh, comes last and equals no earlier page; the old list is a prefix of the new one; the list stays duplicate-free |
| Documents.DocumentStore.constructor | Scanner/Scanner/DocumentStore.swift:44-47 | a store records its path and starts with an empty `documents` list |
| Documents.DocumentStore.Open | Scanner/Scanner/DocumentStore.swift:44-57 | the initializer gives nil exactly when nothing existed at the path and creating the directory failed; otherwise it gives a fresh store with that path and no documents |
| ViewModels.ObserverToken.constructor | Scanner/Scanner/ViewModel.swift:19-25 | a token holds the observer it was created for |
| ViewModels.ViewModel.constructor | Scanner/Scanner/ViewModel.swift:29 | a view model starts with no observers |
| ViewModels.ViewModel.AddObserver | Scanner/Scanner/ViewModel.swift:31-35 | exactly one fresh token for the observer is appended and returned; it equals no token already registered; earlier tokens are unchanged |
| ViewModels.ViewModel.RemoveObserver | Scanner/Scanner/ViewModel.swift:37-39 | the token must be registered; its first occurrence is removed, so the token is gone, the others keep their order, and the registry stays duplicate-free |
| ViewModels.ViewModel.NotifyObservers | Scanner/Scanner/ViewModel.swift:41-45 | `viewModelChanged(self)` is called exactly once per registered token, in registration order, and the registry is not modified |
| ViewModels.AddThenRemoveRestores | Scanner/Scanner/ViewModel.swift:31-39 | `addObserver` followed by `removeObserver` of the returned token restores the original registry |
| Workflows.Workflow.constructor | Scanner/Scanner/Workflow.swift:13-14 | a new workflow has no selected document and no selected page |
| Workflows.Workflow.SelectDocument | Scanner/Scanner/Workflow.swift:16-18 | the selected document becomes the argument; the selected page is unchanged |
| Workflows.Workflow.SelectPage | Scanner/Scanner/Workflow.swift:20-22 | the selected page becomes the argument; the selected document is unchanged |
| Workflows.SelectIsIdempotent | Scanner/Scanner/Workflow.swift:16-22 | selecting the same document, or the same page, twice has the effect of selecting it once |
| Workflows.LastSelectionWins | Scanner/Scanner/Workflow.swift:16-22 | a later selection of the same kind overwrites an earlier one |
| Workflows.SelectionsAreIndependent | Scanner/Scanner/Workflow.swift:16-22 | selecting a document and selecting a page give the same state in either order |

## Left out

- `DocumentStore.save` (Scanner/Scanner/DocumentStore.swift:59-63): the model does not include building the `info` file path, `NSKeyedArchiver` serialisation, or the file write. These are Foundation calls with I/O, and the operation changes no state of the store, so it has no counterpart in the model.
- File-system calls in the store initializer (Scanner/Scanner/DocumentStore.swift:49-51): the model takes their answers as the inputs `pathExists` and `didCreate`. The `NSFileManager` and the error pointer are not part of this model.
- `ViewModelObserver.viewModelChanged`: the model does not include what an observer does when it is called. `NotifyObservers` returns the ordered log of calls it makes. The Swift loop walks a copy of the array, and the model walks a snapshot in the same way.
- Lifetime of the `unowned` observer reference: the model does not include this, because Dafny has no deallocation.
- View controllers, `Utilities.swift`, `PagesViewModel.swift`, `PageViewModel.swift`, `DocumentsViewModel.swift` and `ViewModelFactory.swift` are not part of this model. They are UIKit layout, image loading, `NSNotificationCenter` broadcast and singleton wiring. Some of them also call store APIs (`createDocument`, `title`, image pages) that `DocumentStore.swift` in this revision does not define.
- Change tracking, catalog encoding and decoding, blob storage and deferred blob deletion are not modelled. The code of this revision does not contain them.
