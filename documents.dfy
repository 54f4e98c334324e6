// Pages, documents and the store that owns them (Scanner/Scanner/DocumentStore.swift).
// Pages, documents and stores are reference objects compared by identity; a
// document keeps an ordered list of pages that only grows, and a store keeps the
// list of its documents and the directory path it was opened on. The `==` the
// source declares for pages and documents is `IdentityEquals`.

module Documents {
  import opened ArrayOps

  /** A scanned page. It carries no state of its own in this revision. */
  class Page {
    constructor ()
    {
    }
  }

  /** A document: a fixed back-reference to its store and an ordered list of pages. */
  class Document {
    const store: DocumentStore
    var pages: seq<Page>

    /** Every page object occurs at most once in the document. */
    ghost predicate Valid()
      reads this
    {
      Distinct(pages)
    }

    constructor (store: DocumentStore)
      ensures this.store == store
      ensures pages == []
      ensures Valid()
    {
      this.store := store;
      pages := [];
    }

    /** Creates a fresh page and appends it to the end of the page list; the pages
        already there keep their positions. The back-reference to the store is a
        constant, so no operation can change it. */
    method CreatePage() returns (page: Page)
      requires Valid()
      modifies this
      ensures Valid()
      ensures fresh(page)
      ensures pages == old(pages) + [page]
      ensures |pages| == |old(pages)| + 1 && pages[|pages| - 1] == page
      ensures old(pages) <= pages
      ensures forall q :: q in old(pages) ==> !IdentityEquals(q, page)
    {
      page := new Page();
      AppendFreshIsDistinct(pages, page);
      pages := pages + [page];
    }
  }

  /** The store: the directory it lives in and the documents it owns. */
  class DocumentStore {
    const path: string
    var documents: seq<Document>

    /** No document occurs twice, and every document points back at this store. This
        records the shape the documents list is meant to keep; no operation of this
        revision changes the list, which stays empty, so nothing yet relies on it. */
    ghost predicate Valid()
      reads this
    {
      Distinct(documents) && forall d :: d in documents ==> d.store == this
    }

    /** The success branch of the failable initializer. `Open` is the only
        counterpart of that initializer: it decides from the file-system answers
        whether a store is made at all, and calls this constructor when it is. */
    constructor (path: string)
      ensures this.path == path
      ensures documents == []
      ensures Valid()
    {
      this.path := path;
      documents := [];
    }

    /** The failable initializer. The two answers of the file manager are inputs:
        `pathExists` is whether something exists at `path`, and `didCreate` is what
        creating the directory answers, which is consulted only when nothing exists
        there. The store is absent exactly when nothing existed at the path and the
        directory could not be created; otherwise it starts with no documents. */
    static method Open(path: string, pathExists: bool, didCreate: bool) returns (store: DocumentStore?)
      ensures store == null <==> !pathExists && !didCreate
      ensures store != null ==> fresh(store) && store.Valid()
      ensures store != null ==> store.path == path && store.documents == []
    {
      if !pathExists {
        if !didCreate {
          return null;
        }
      }
      store := new DocumentStore(path);
    }
  }
}
