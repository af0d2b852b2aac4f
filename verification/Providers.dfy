/** The deployment providers and the two branches that are deployed. */
module Providers {
  datatype Provider = Vercel | Render

  datatype Branch = Uat | Main

  function BranchName(b: Branch): string {
    match b case Uat => "uat" case Main => "main"
  }
}
