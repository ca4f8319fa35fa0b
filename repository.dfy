/** The Repository facade: create, delete, move and change the visibility of a
    repository. Each call sends its payload as a JSON body and passes a nil result slot
    (modelled as the unit value `()`: the call can store nothing in it). */
module RepositoryApi {
  import opened Errors
  import opened Http

  const CreateRepoFailedPrefix := "failed to create repository: "
  const DeleteRepoFailedPrefix := "failed to delete repository: "
  const MoveRepoFailedPrefix := "failed to move repository: "

  datatype CreateRepositoryPayload = CreateRepositoryPayload(
    repoType: string, name: string, organization: string, visibility: string, sdk: string)

  datatype DeleteRepositoryPayload = DeleteRepositoryPayload(
    repoType: string, name: string, organization: string)

  datatype MoveRepositoryPayload = MoveRepositoryPayload(repoType: string, from: string, to: string)

  datatype UpdateVisibilityPayload = UpdateVisibilityPayload(visibility: string)

  /** The path of a visibility update: "/repos/%s/%s" with both parts unescaped. */
  function VisibilityPath(repositoryType: string, repositoryID: string): (p: string)
    ensures |p| == |"/repos/"| + |repositoryType| + 1 + |repositoryID|
    ensures p[..7] == "/repos/" && p[7..7 + |repositoryType|] == repositoryType
    ensures p[7 + |repositoryType|] == '/' && p[8 + |repositoryType|..] == repositoryID
  {
    "/repos/" + repositoryType + "/" + repositoryID
  }

  /** fmt.Errorf(prefix + "%v", err): the cause survives only as the tail of the text. */
  function Annotate(prefix: string, err: Outcome): (r: Outcome)
    ensures r.Pass? <==> err.Pass?
    ensures r.Fail? ==> r.error.Plain? && EndsWith(r.error.text, err.error.text)
    ensures r.Fail? ==> prefix <= r.error.text
  {
    match err
    case Pass => Pass
    case Fail(e) => Fail(Plain(prefix + e.text))
  }

  /** The Repository facade. */
  datatype Repository = Repository(httpClient: HttpClient)
  {
    function CreateRepository(payload: CreateRepositoryPayload, marshal: Marshaller<CreateRepositoryPayload>,
                              decode: Decoder<()>): (r: Outcome)
      ensures var rep := httpClient.Issue(POST, "/repos/create", payload, marshal, (), decode);
        && (rep.err.Pass? ==> r == Pass)
        && (rep.err.Fail? ==> r == Fail(Plain(CreateRepoFailedPrefix + rep.err.error.text)))
    {
      Annotate(CreateRepoFailedPrefix, httpClient.Issue(POST, "/repos/create", payload, marshal, (), decode).err)
    }

    function DeleteRepository(payload: DeleteRepositoryPayload, marshal: Marshaller<DeleteRepositoryPayload>,
                              decode: Decoder<()>): (r: Outcome)
      ensures var rep := httpClient.Issue(DELETE, "/repos/delete", payload, marshal, (), decode);
        && (rep.err.Pass? ==> r == Pass)
        && (rep.err.Fail? ==> r == Fail(Plain(DeleteRepoFailedPrefix + rep.err.error.text)))
    {
      Annotate(DeleteRepoFailedPrefix, httpClient.Issue(DELETE, "/repos/delete", payload, marshal, (), decode).err)
    }

    function MoveRepository(payload: MoveRepositoryPayload, marshal: Marshaller<MoveRepositoryPayload>,
                            decode: Decoder<()>): (r: Outcome)
      ensures var rep := httpClient.Issue(POST, "/repos/move", payload, marshal, (), decode);
        && (rep.err.Pass? ==> r == Pass)
        && (rep.err.Fail? ==> r == Fail(Plain(MoveRepoFailedPrefix + rep.err.error.text)))
    {
      Annotate(MoveRepoFailedPrefix, httpClient.Issue(POST, "/repos/move", payload, marshal, (), decode).err)
    }

    /** Reuses the create message for its failures, as the Go code does. */
    function UpdateRepositoryVisibility(repositoryType: string, repositoryID: string,
                                        payload: UpdateVisibilityPayload, marshal: Marshaller<UpdateVisibilityPayload>,
                                        decode: Decoder<()>): (r: Outcome)
      ensures var rep := httpClient.Issue(PUT, "/repos/" + repositoryType + "/" + repositoryID, payload, marshal, (), decode);
        && (rep.err.Pass? ==> r == Pass)
        && (rep.err.Fail? ==> r == Fail(Plain(CreateRepoFailedPrefix + rep.err.error.text)))
    {
      Annotate(CreateRepoFailedPrefix,
               httpClient.Issue(PUT, VisibilityPath(repositoryType, repositoryID), payload, marshal, (), decode).err)
    }
  }

  /** Since the visibility update reuses the create message, a caller cannot tell the
      two failures apart: the same cause gives an error with the same text. */
  lemma VisibilityFailureReadsAsCreate(repo: Repository,
                                       create: CreateRepositoryPayload, cm: Marshaller<CreateRepositoryPayload>,
                                       repositoryType: string, repositoryID: string,
                                       update: UpdateVisibilityPayload, um: Marshaller<UpdateVisibilityPayload>,
                                       decode: Decoder<()>)
    requires repo.httpClient.Issue(POST, "/repos/create", create, cm, (), decode).err
          == repo.httpClient.Issue(PUT, VisibilityPath(repositoryType, repositoryID), update, um, (), decode).err
    ensures repo.CreateRepository(create, cm, decode)
         == repo.UpdateRepositoryVisibility(repositoryType, repositoryID, update, um, decode)
  {
  }

  /** The path parts are not escaped: a "/" inside them moves the boundary, so two
      different (type, id) pairs can address the same path. */
  lemma VisibilityPathIsAmbiguous()
    ensures VisibilityPath("a", "b/c") == VisibilityPath("a/b", "c")
  {
  }
}
