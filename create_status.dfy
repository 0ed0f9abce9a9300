/** The two submit buttons of the create screens, 'Publish' and 'Save as
    Draft', and the status string each one stores. The community and track
    screens each declare the same `'Active' | 'Draft'` parameter. */
module CreateStatus {
  datatype SubmitStatus = Active | Draft

  function StatusName(status: SubmitStatus): (name: string)
    ensures name == "Active" || name == "Draft"
    ensures status.Active? <==> name == "Active"
  {
    match status
    case Active => "Active"
    case Draft => "Draft"
  }
}
