/** The three retrieval nodes together. */
module RetrievalLaws {
  import opened Coverage
  import Nodes = RetrievalNodes
  import Odoo = OdooNode
  import OdooNodeLaws

  /**
    The three nodes in a row, for every query, permission, reply, failure and delay: every source has a
    record, which counts exactly the evidence the state holds from it; no enabled source is skipped
    without a documented reason; and "full" means some source is enabled and every enabled one
    contributed.
  */
  lemma RetrievalIsAccounted(sp: Nodes.SharePointQuery, em: Nodes.EmailQuery, od: Odoo.Query, w: Odoo.World)
    requires OdooNodeLaws.DistinctSpecs(od.specs)
    ensures
      var sharepoint, email, odoo := Nodes.SharePoint(sp), Nodes.Email(em), Odoo.Node(od, w).contribution;
      var evidence := sharepoint.appended + email.appended + odoo.appended;
      var cov := Recorded(odoo, sharepoint, email);
      && (forall src :: src in cov && CountFrom(evidence, src) == cov[src].evidenceCount)
      && Summarise(cov).allEnabledAttempted
      && (Summarise(cov).completeness == Full <==>
            && (od.enabled || sp.enabled || em.enabled)
            && (od.enabled ==> odoo.appended != []) && (sp.enabled ==> sharepoint.appended != [])
            && (em.enabled ==> email.appended != []))
  {
    Nodes.SharePointIsAccounted(sp);
    Nodes.EmailIsAccounted(em);
    OdooNodeLaws.OdooIsAccounted(od, w);
    CombineAccounts(Odoo.Node(od, w).contribution, Nodes.SharePoint(sp), Nodes.Email(em), od.enabled, sp.enabled,
                    em.enabled);
  }

  lemma CombineAccounts(odoo: Contribution, sharepoint: Contribution, email: Contribution,
                        odooOn: bool, sharepointOn: bool, emailOn: bool)
    requires Accounted(odoo, OdooSource, odooOn)
    requires Accounted(sharepoint, SharePointSource, sharepointOn)
    requires Accounted(email, EmailSource, emailOn)
    ensures
      var evidence := sharepoint.appended + email.appended + odoo.appended;
      var cov := Recorded(odoo, sharepoint, email);
      && (forall src :: src in cov && CountFrom(evidence, src) == cov[src].evidenceCount)
      && Summarise(cov).allEnabledAttempted
      && (Summarise(cov).completeness == Full <==>
            && (odooOn || sharepointOn || emailOn)
            && (odooOn ==> odoo.appended != []) && (sharepointOn ==> sharepoint.appended != [])
            && (emailOn ==> email.appended != []))
  {
    NothingIsSkippedSilently(odoo, sharepoint, email, odooOn, sharepointOn, emailOn);
    forall src: Source
      ensures CountFrom(sharepoint.appended + email.appended + odoo.appended, src)
           == EntryOf(Recorded(odoo, sharepoint, email), src).evidenceCount
    {
      EvidenceIsConserved(odoo, sharepoint, email, odooOn, sharepointOn, emailOn, src);
    }
  }
}
