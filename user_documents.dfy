/**
 * The document locker panel: the document types on offer, the role gate
 * for the upload area, the checks an upload must pass before anything is
 * sent, and the panel state through fetching, uploading and deleting.
 */
module UserDocuments {
  import opened JsSemantics

  const DOCUMENT_TYPES: seq<string> := ["AADHAR", "PAN", "BANK_STATEMENT", "SALARY_SLIP", "OTHER"]

  /** Uploads above 5 MiB are refused. */
  const MAX_UPLOAD_BYTES: nat := 5 * 1024 * 1024

  const API := "http://localhost:8732/api"

  datatype PdfFile = PdfFile(name: string, size: nat)

  datatype Document = Document(documentId: string, fileName: string, documentType: string)

  /** The upload area appears for the USER role in any letter case. */
  predicate UploadAreaShown(userRole: Option<string>): (shown: bool)
    ensures shown <==> userRole.Some? && ToLower(userRole.value) == "user"
  {
    SameLetters(userRole);
    userRole.Some? && ToUpper(userRole.value) == "USER"
  }

  /** Upper-casing gives "USER" exactly when lower-casing gives "user". */
  lemma SameLetters(userRole: Option<string>)
    ensures userRole.Some? ==> (ToUpper(userRole.value) == "USER" <==> ToLower(userRole.value) == "user")
  {
    if userRole.Some? && |userRole.value| == 4 {
      var v := userRole.value;
      var up, low := "USER", "user";
      forall i | 0 <= i < 4 ensures (ToUpper(v)[i] == up[i] <==> ToLower(v)[i] == low[i]) {
        LetterCase(v[i], up[i], low[i]);
      }
      assert ToUpper(v) == up <==> forall i :: 0 <= i < 4 ==> ToUpper(v)[i] == up[i];
      assert ToLower(v) == low <==> forall i :: 0 <= i < 4 ==> ToLower(v)[i] == low[i];
    }
  }

  /** A character upper-cases to a capital exactly when it lower-cases to
      that capital's small letter. */
  lemma LetterCase(c: char, u: char, l: char)
    requires IsUpper(u) && l as int == u as int + 32
    ensures UpperChar(c) == u <==> LowerChar(c) == l
  {
  }

  lemma UploadAreaRoles()
    ensures UploadAreaShown(Some("user")) && UploadAreaShown(Some("User")) && UploadAreaShown(Some("USER"))
    ensures !UploadAreaShown(Some("ADMIN")) && !UploadAreaShown(Some("")) && !UploadAreaShown(None)
  {
    assert ToUpper("user") == "USER";
    assert ToUpper("User") == "USER";
    assert ToUpper("ADMIN")[0] != 'U';
  }

  /** The props a route hands the panel. */
  datatype PanelProps = PanelProps(userId: string, userRole: Option<string>)

  /** The `/documents` route as wired: the stored profile's id, and no role. */
  function DocumentsRoutePropsAsWired(storedId: string, storedRole: string): (props: PanelProps)
    ensures props.userId == storedId
  {
    PanelProps(storedId, None)
  }

  /** The `/documents` route passing the stored profile's role as well. */
  function DocumentsRoutePropsIntended(storedId: string, storedRole: string): (props: PanelProps)
    ensures props.userId == storedId
  {
    PanelProps(storedId, Some(storedRole))
  }

  /** As wired, the upload area never shows on `/documents`, even for a USER. */
  lemma UploadHiddenOnDocumentsRoute(storedId: string, storedRole: string)
    ensures !UploadAreaShown(DocumentsRoutePropsAsWired(storedId, storedRole).userRole)
  {
  }

  /** With the role passed, a USER in any letter case sees the upload area
      on `/documents`, and no other role does. */
  lemma UploadOnDocumentsRouteIntended(storedId: string, storedRole: string)
    ensures UploadAreaShown(DocumentsRoutePropsIntended(storedId, storedRole).userRole) <==>
      ToLower(storedRole) == "user"
    ensures storedRole == "USER" ==> UploadAreaShown(DocumentsRoutePropsIntended(storedId, storedRole).userRole)
  {
    if storedRole == "USER" {
      assert ToLower("USER") == "user";
    }
  }

  /** Why `handleUpload` stops before sending, if it does. */
  datatype UploadCheck = MissingInput | TooLarge | Accepted

  /** The pre-checks: a file and a type must both be chosen, then the file
      must be at most 5 MiB. */
  function CheckUpload(file: Option<PdfFile>, docType: string): (c: UploadCheck)
    ensures c == MissingInput <==> file.None? || docType == ""
    ensures c == TooLarge <==> file.Some? && docType != "" && file.value.size > MAX_UPLOAD_BYTES
    ensures c == Accepted <==> file.Some? && docType != "" && file.value.size <= MAX_UPLOAD_BYTES
  {
    if file.None? || docType == "" then MissingInput
    else if file.value.size > MAX_UPLOAD_BYTES then TooLarge
    else Accepted
  }

  /** Exactly 5 MiB is accepted and one byte more is not; a missing type is
      reported before an oversized file. */
  lemma UploadLimitBoundary(name: string, docType: string)
    requires docType != ""
    ensures CheckUpload(Some(PdfFile(name, 5242880)), docType) == Accepted
    ensures CheckUpload(Some(PdfFile(name, 5242881)), docType) == TooLarge
    ensures CheckUpload(Some(PdfFile(name, 5242881)), "") == MissingInput
  {
  }

  /** The multipart body of an upload. */
  datatype UploadRequest = UploadRequest(file: PdfFile, userId: string, documentType: string)

  /** How the document-list request settles: a body (None for an empty
      one) or an error. */
  datatype DocsResponse = DocsBody(data: Option<seq<Document>>) | DocsFailed

  class DocumentsPanel {
    const userId: string
    const userRole: Option<string>
    var file: Option<PdfFile>
    var docType: string
    var uploading: bool
    var userDocs: seq<Document>
    var docsLoadingUser: bool
    var deleteDialogOpen: bool
    var docToDelete: Option<Document>

    /** The delete dialog is only ever open on a chosen document. */
    predicate Valid()
      reads this
    {
      deleteDialogOpen ==> docToDelete.Some?
    }

    constructor(userId: string, userRole: Option<string>)
      ensures this.userId == userId && this.userRole == userRole
      ensures file.None? && docType == "" && !uploading && userDocs == [] && !docsLoadingUser
      ensures !deleteDialogOpen && docToDelete.None?
      ensures Valid()
    {
      this.userId := userId;
      this.userRole := userRole;
      file := None;
      docType := "";
      uploading := false;
      userDocs := [];
      docsLoadingUser := false;
      deleteDialogOpen := false;
      docToDelete := None;
    }

    /** `fetchUserDocs` up to its request: nothing at all without a user id. */
    method FetchUserDocs() returns (request: Option<string>)
      modifies this
      ensures userId == "" ==> request.None? && docsLoadingUser == old(docsLoadingUser)
      ensures userId != "" ==> request == Some(API + "/documents/user/" + userId) && docsLoadingUser
      ensures file == old(file) && docType == old(docType) && uploading == old(uploading)
      ensures userDocs == old(userDocs)
      ensures deleteDialogOpen == old(deleteDialogOpen) && docToDelete == old(docToDelete)
    {
      if userId == "" {
        request := None;
      } else {
        docsLoadingUser := true;
        request := Some(API + "/documents/user/" + userId);
      }
    }

    /** The list request settles: its body, or nothing on an empty body or a
        failure; the loading flag drops either way. */
    method FetchUserDocsSettled(response: DocsResponse)
      modifies this
      ensures response.DocsBody? && response.data.Some? ==> userDocs == response.data.value
      ensures response.DocsFailed? || response.data.None? ==> userDocs == []
      ensures !docsLoadingUser
      ensures file == old(file) && docType == old(docType) && uploading == old(uploading)
      ensures deleteDialogOpen == old(deleteDialogOpen) && docToDelete == old(docToDelete)
    {
      if response.DocsBody? && response.data.Some? {
        userDocs := response.data.value;
      } else {
        userDocs := [];
      }
      docsLoadingUser := false;
    }

    /** The file input keeps the first chosen file, or none when the choice
        is empty. */
    method ChooseFile(selected: seq<PdfFile>)
      modifies this
      ensures file == if selected == [] then None else Some(selected[0])
      ensures docType == old(docType) && uploading == old(uploading) && userDocs == old(userDocs)
      ensures docsLoadingUser == old(docsLoadingUser)
      ensures deleteDialogOpen == old(deleteDialogOpen) && docToDelete == old(docToDelete)
    {
      file := if selected == [] then None else Some(selected[0]);
    }

    method ChooseDocType(t: string)
      modifies this
      ensures docType == t
      ensures file == old(file) && uploading == old(uploading) && userDocs == old(userDocs)
      ensures docsLoadingUser == old(docsLoadingUser)
      ensures deleteDialogOpen == old(deleteDialogOpen) && docToDelete == old(docToDelete)
    {
      docType := t;
    }

    /** `handleUpload` up to its request; the button is disabled while an
        upload is in flight. A refused upload changes nothing. */
    method HandleUpload() returns (request: Option<UploadRequest>)
      requires !uploading
      modifies this
      ensures request.None? <==> CheckUpload(old(file), old(docType)) != Accepted
      ensures request.None? ==> !uploading
      ensures request.Some? ==> uploading && file.Some? && request.value == UploadRequest(file.value, userId, docType)
      ensures file == old(file) && docType == old(docType) && userDocs == old(userDocs)
      ensures docsLoadingUser == old(docsLoadingUser)
      ensures deleteDialogOpen == old(deleteDialogOpen) && docToDelete == old(docToDelete)
    {
      if CheckUpload(file, docType) != Accepted {
        request := None;
        return;
      }
      uploading := true;
      request := Some(UploadRequest(file.value, userId, docType));
    }

    /** The upload settles. On success the choice is cleared and the list is
        fetched again; either way `uploading` drops. */
    method UploadSettled(succeeded: bool) returns (refetch: Option<string>)
      modifies this
      ensures !uploading
      ensures succeeded ==> file.None? && docType == ""
      ensures !succeeded ==> file == old(file) && docType == old(docType) && refetch.None?
      ensures succeeded && userId != "" ==> refetch == Some(API + "/documents/user/" + userId) && docsLoadingUser
      ensures succeeded && userId == "" ==> refetch.None?
      ensures !(succeeded && userId != "") ==> docsLoadingUser == old(docsLoadingUser)
      ensures userDocs == old(userDocs)
      ensures deleteDialogOpen == old(deleteDialogOpen) && docToDelete == old(docToDelete)
    {
      refetch := None;
      if succeeded {
        file := None;
        docType := "";
        refetch := FetchUserDocs();
      }
      uploading := false;
    }

    /** The delete icon on a document opens the confirmation for it. */
    method SelectForDelete(doc: Document)
      modifies this
      ensures docToDelete == Some(doc) && deleteDialogOpen
      ensures file == old(file) && docType == old(docType) && uploading == old(uploading)
      ensures userDocs == old(userDocs) && docsLoadingUser == old(docsLoadingUser)
      ensures Valid()
    {
      docToDelete := Some(doc);
      deleteDialogOpen := true;
    }

    /** Cancel closes the dialog but keeps the chosen document. */
    method CancelDelete()
      requires Valid()
      modifies this
      ensures !deleteDialogOpen && docToDelete == old(docToDelete)
      ensures file == old(file) && docType == old(docType) && uploading == old(uploading)
      ensures userDocs == old(userDocs) && docsLoadingUser == old(docsLoadingUser)
      ensures Valid()
    {
      deleteDialogOpen := false;
    }

    /** `handleDelete` up to its request: nothing without a chosen document. */
    method HandleDelete() returns (request: Option<string>)
      ensures docToDelete.None? ==> request.None?
      ensures docToDelete.Some? ==> request == Some(API + "/documents/" + docToDelete.value.documentId)
    {
      if docToDelete.None? {
        request := None;
      } else {
        request := Some(API + "/documents/" + docToDelete.value.documentId);
      }
    }

    /** The deletion settles: success closes the dialog, forgets the document
        and refetches; failure leaves everything as it was. */
    method DeleteSettled(succeeded: bool) returns (refetch: Option<string>)
      requires Valid()
      modifies this
      ensures succeeded ==> !deleteDialogOpen && docToDelete.None?
      ensures succeeded && userId != "" ==> refetch == Some(API + "/documents/user/" + userId) && docsLoadingUser
      ensures succeeded && userId == "" ==> refetch.None?
      ensures !(succeeded && userId != "") ==> docsLoadingUser == old(docsLoadingUser)
      ensures !succeeded ==> refetch.None? && deleteDialogOpen == old(deleteDialogOpen) && docToDelete == old(docToDelete)
      ensures file == old(file) && docType == old(docType) && uploading == old(uploading)
      ensures userDocs == old(userDocs)
      ensures Valid()
    {
      refetch := None;
      if succeeded {
        deleteDialogOpen := false;
        docToDelete := None;
        refetch := FetchUserDocs();
      }
    }
  }

  /** The mount effect: fetch the list when there is a user id. */
  method MountPanel(userId: string, userRole: Option<string>) returns (panel: DocumentsPanel, request: Option<string>)
    ensures fresh(panel) && panel.Valid()
    ensures request.Some? <==> userId != ""
    ensures panel.docsLoadingUser <==> userId != ""
  {
    panel := new DocumentsPanel(userId, userRole);
    request := panel.FetchUserDocs();
  }

  /** A full happy path: choose a PDF of exactly 5 MiB and a type, upload,
      and the panel ends with an empty choice, not uploading, and refetching. */
  method UploadScenario(userId: string) returns (sent: Option<UploadRequest>, cleared: bool, refetched: bool)
    requires userId != ""
    ensures sent == Some(UploadRequest(PdfFile("slip.pdf", MAX_UPLOAD_BYTES), userId, "SALARY_SLIP"))
    ensures cleared && refetched
  {
    var panel := new DocumentsPanel(userId, Some("USER"));
    panel.ChooseFile([PdfFile("slip.pdf", MAX_UPLOAD_BYTES)]);
    panel.ChooseDocType("SALARY_SLIP");
    sent := panel.HandleUpload();
    var refetch := panel.UploadSettled(true);
    cleared := panel.file.None? && panel.docType == "" && !panel.uploading;
    refetched := refetch.Some? && panel.docsLoadingUser;
  }

  /** Only the five listed types can be chosen from the menu. */
  lemma DocumentTypesExact(t: string)
    ensures t in DOCUMENT_TYPES <==> t in {"AADHAR", "PAN", "BANK_STATEMENT", "SALARY_SLIP", "OTHER"}
    ensures |DOCUMENT_TYPES| == 5
  {
  }
}
