/** Where a piece of evidence comes from. */
module SourceTypes {
  datatype SourceType = Odoo | SharePoint | OwnCloud | Email | Cad
}
