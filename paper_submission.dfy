/**
 * The paper-submission form (dashboard/author/certificates/page.tsx): a
 * new submission, or a revision when the URL carries a `revision`
 * parameter; title, summary and file are required.
 */
module PaperSubmission {
  import opened Optional

  datatype PaperType = ORAL | POSTER

  const MissingAlert := "Please complete all required fields."
  const RevisionAlert := "Revision submitted successfully!"
  const SubmissionAlert := "Submission sent successfully!"
  const SubmissionsPage := "/dashboard/author/submissions"

  /** `Boolean(revisionId)`: the parameter is present and not empty. */
  predicate IsRevision(revisionId: Option<string>) {
    revisionId.Some? && revisionId.value != ""
  }

  /** The form state; `file` is the chosen file's name, if any. */
  class SubmitPaper {
    const revisionId: Option<string>
    var title: string
    var summary: string
    var keywords: string
    var paperType: PaperType
    var file: Option<string>

    /** Empty fields, an oral paper, no file; `revisionId` is the query parameter. */
    constructor (revisionId: Option<string>)
      ensures this.revisionId == revisionId
      ensures title == "" && summary == "" && keywords == "" && paperType == ORAL && file == None
    {
      this.revisionId := revisionId;
      title, summary, keywords := "", "", "";
      paperType := ORAL;
      file := None;
    }

    /**
     * `handleSubmit(e)`: a missing title, summary or file alerts and
     * stays; otherwise the alert names the mode and the browser goes to
     * the author's submissions. Keywords and type are never checked.
     */
    method HandleSubmit() returns (alert: string, navigate: Option<string>)
      ensures title == "" || summary == "" || file.None? ==> alert == MissingAlert && navigate == None
      ensures title != "" && summary != "" && file.Some? ==>
        && alert == (if IsRevision(revisionId) then RevisionAlert else SubmissionAlert)
        && navigate == Some(SubmissionsPage)
    {
      if title == "" || summary == "" || file.None? {
        return MissingAlert, None;
      }
      alert := if IsRevision(revisionId) then RevisionAlert else SubmissionAlert;
      navigate := Some(SubmissionsPage);
    }
  }

  /** An empty `revision` parameter is present but still gives a first submission. */
  lemma EmptyRevisionIsNotRevision()
    ensures !IsRevision(Some(""))
    ensures IsRevision(Some("r1"))
  {
  }
}
