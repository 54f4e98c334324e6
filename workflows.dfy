// The selection cache (Scanner/Scanner/Workflow.swift): which document and which
// page the user has selected. Both start empty and are set independently.

module Workflows {
  import opened Documents

  /** The two selections, as one value. */
  datatype Selection = Selection(document: Document?, page: Page?)

  function WithDocument(s: Selection, d: Document): (r: Selection) {
    s.(document := d)
  }

  function WithPage(s: Selection, p: Page): (r: Selection) {
    s.(page := p)
  }

  /** Selecting the same document or page twice has the effect of selecting it once. */
  lemma SelectIsIdempotent(s: Selection, d: Document, p: Page)
    ensures WithDocument(WithDocument(s, d), d) == WithDocument(s, d)
    ensures WithPage(WithPage(s, p), p) == WithPage(s, p)
  {
  }

  /** A later selection overwrites an earlier one of the same kind. */
  lemma LastSelectionWins(s: Selection, d1: Document, d2: Document, p1: Page, p2: Page)
    ensures WithDocument(WithDocument(s, d1), d2) == WithDocument(s, d2)
    ensures WithPage(WithPage(s, p1), p2) == WithPage(s, p2)
  {
  }

  /** Selecting a document and selecting a page do not interfere: either order gives
      the same state. */
  lemma SelectionsAreIndependent(s: Selection, d: Document, p: Page)
    ensures WithPage(WithDocument(s, d), p) == WithDocument(WithPage(s, p), d)
  {
  }

  class Workflow {
    var selectedDocument: Document?
    var selectedPage: Page?

    function Current(): (s: Selection)
      reads this
    {
      Selection(selectedDocument, selectedPage)
    }

    constructor ()
      ensures selectedDocument == null && selectedPage == null
    {
      selectedDocument := null;
      selectedPage := null;
    }

    /** Makes `document` the selected document; the selected page stays. */
    method SelectDocument(document: Document)
      modifies this
      ensures selectedDocument == document
      ensures selectedPage == old(selectedPage)
      ensures Current() == WithDocument(old(Current()), document)
    {
      selectedDocument := document;
    }

    /** Makes `page` the selected page; the selected document stays. */
    method SelectPage(page: Page)
      modifies this
      ensures selectedPage == page
      ensures selectedDocument == old(selectedDocument)
      ensures Current() == WithPage(old(Current()), page)
    {
      selectedPage := page;
    }
  }
}
