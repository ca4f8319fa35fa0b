/** The Search facade: read-only GET calls on the Hub's model, dataset, space and
    metric listings. */
module SearchApi {
  import opened Errors
  import opened Encoding
  import opened Http

  /** The resources the facade reads. */
  datatype Endpoint =
    | Models
    | Model(id: string)
    | Datasets
    | Dataset(id: string)
    | DatasetsTags
    | Spaces
    | SpacesByRepository(repositoryID: string)
    | Metrics

  /** The path of each resource: fixed for the listings, "%s"-formatted (plain
      concatenation) for the by-id getters. */
  function PathOf(e: Endpoint): (p: string)
    ensures |p| > 1 && p[0] == '/'
    ensures e.Model? || e.Dataset? ==> EndsWith(p, "/" + e.id)
    ensures e.SpacesByRepository? ==> EndsWith(p, "/" + e.repositoryID)
  {
    match e
    case Models => "/models"
    case Model(id) => "/models/" + id
    case Datasets => "/datasets"
    case Dataset(id) => "/datasets/" + id
    case DatasetsTags => "/datasets-tags-by-type"
    case Spaces => "/spaces"
    case SpacesByRepository(id) => "/spaces/" + id
    case Metrics => "/metrics"
  }

  /** The `(T, error)` result of a getter: the verb's error unchanged, or the slot. */
  function Propagate<T>(rep: Reply<T>): Result<T> {
    match rep.err
    case Pass => Ok(rep.out)
    case Fail(e) => Err(e)
  }

  lemma PrefixesDiffer(p: string, q: string, x: string, y: string, k: nat)
    requires k < |p| && k < |q| && p[k] != q[k]
    ensures p + x != q + y
  {
    assert (p + x)[k] == p[k] && (q + y)[k] == q[k];
  }

  lemma SamePrefix(p: string, x: string, y: string)
    requires p + x == p + y
    ensures x == y
  {
    assert x == (p + x)[|p|..] && y == (p + y)[|p|..];
  }

  /** The second and third characters of each path, where its family shows. */
  function Mark(e: Endpoint): (r: (char, char))
    ensures var p := PathOf(e); |p| >= 3 && p[1] == r.0 && p[2] == r.1
  {
    match e
    case Models | Model(_) => ('m', 'o')
    case Datasets | Dataset(_) | DatasetsTags => ('d', 'a')
    case Spaces | SpacesByRepository(_) => ('s', 'p')
    case Metrics => ('m', 'e')
  }

  /** Different resources (or different ids of one kind) never share a path, so every
      call reaches the resource it names. */
  lemma {:induction false} PathsDistinct(e1: Endpoint, e2: Endpoint)
    requires e1 != e2
    ensures PathOf(e1) != PathOf(e2)
  {
    var p1, p2 := PathOf(e1), PathOf(e2);
    var m1, m2 := Mark(e1), Mark(e2);
    if m1.0 != m2.0 || m1.1 != m2.1 {
      assert p1[1] != p2[1] || p1[2] != p2[2];
    } else if e1.Model? && e2.Model? {
      if p1 == p2 { SamePrefix("/models/", e1.id, e2.id); }
    } else if e1.Dataset? && e2.Dataset? {
      if p1 == p2 { SamePrefix("/datasets/", e1.id, e2.id); }
    } else if e1.SpacesByRepository? && e2.SpacesByRepository? {
      if p1 == p2 { SamePrefix("/spaces/", e1.repositoryID, e2.repositoryID); }
    } else if (e1.Dataset? && e2.DatasetsTags?) || (e1.DatasetsTags? && e2.Dataset?) {
      PrefixesDiffer("/datasets/", "/datasets-tags-by-type", if e1.Dataset? then e1.id else e2.id, "", 9);
      assert "/datasets-tags-by-type" == "/datasets-tags-by-type" + "";
    } else {
      // one of the two is a fixed path that is a strict prefix of, or shorter than, the other
      assert |p1| != |p2|;
    }
  }

  /** The Search facade. Every getter issues one GET with no body into an empty slot and
      returns the verb's error unchanged (not wrapped), or the decoded value. */
  datatype Search = Search(httpClient: HttpClient)
  {
    function Fetch<T>(e: Endpoint, zero: T, decode: Decoder<T>): Result<T> {
      Propagate(httpClient.Send(GET, PathOf(e), NoBody, zero, decode))
    }

    function GetModels(decode: Decoder<seq<Dto>>): (r: Result<seq<Dto>>)
      ensures var rep := httpClient.Send(GET, "/models", NoBody, [], decode);
        && (rep.err.Fail? ==> r == Err(rep.err.error))
        && (rep.err.Pass? ==> r == Ok(rep.out))
    {
      Fetch(Models, [], decode)
    }

    function GetModel(id: string, decode: Decoder<Dto>): (r: Result<Dto>)
      ensures var rep := httpClient.Send(GET, "/models/" + id, NoBody, EmptyDto, decode);
        && (rep.err.Fail? ==> r == Err(rep.err.error))
        && (rep.err.Pass? ==> r == Ok(rep.out))
    {
      Fetch(Model(id), EmptyDto, decode)
    }

    function GetDatasets(decode: Decoder<seq<Dto>>): (r: Result<seq<Dto>>)
      ensures var rep := httpClient.Send(GET, "/datasets", NoBody, [], decode);
        && (rep.err.Fail? ==> r == Err(rep.err.error))
        && (rep.err.Pass? ==> r == Ok(rep.out))
    {
      Fetch(Datasets, [], decode)
    }

    function GetDataset(id: string, decode: Decoder<Dto>): (r: Result<Dto>)
      ensures var rep := httpClient.Send(GET, "/datasets/" + id, NoBody, EmptyDto, decode);
        && (rep.err.Fail? ==> r == Err(rep.err.error))
        && (rep.err.Pass? ==> r == Ok(rep.out))
    {
      Fetch(Dataset(id), EmptyDto, decode)
    }

    function GetDatasetsTags(decode: Decoder<Dto>): (r: Result<Dto>)
      ensures var rep := httpClient.Send(GET, "/datasets-tags-by-type", NoBody, EmptyDto, decode);
        && (rep.err.Fail? ==> r == Err(rep.err.error))
        && (rep.err.Pass? ==> r == Ok(rep.out))
    {
      Fetch(DatasetsTags, EmptyDto, decode)
    }

    function GetSpaces(decode: Decoder<seq<Dto>>): (r: Result<seq<Dto>>)
      ensures var rep := httpClient.Send(GET, "/spaces", NoBody, [], decode);
        && (rep.err.Fail? ==> r == Err(rep.err.error))
        && (rep.err.Pass? ==> r == Ok(rep.out))
    {
      Fetch(Spaces, [], decode)
    }

    function GetSpacesByRepository(repositoryID: string, decode: Decoder<Dto>): (r: Result<Dto>)
      ensures var rep := httpClient.Send(GET, "/spaces/" + repositoryID, NoBody, EmptyDto, decode);
        && (rep.err.Fail? ==> r == Err(rep.err.error))
        && (rep.err.Pass? ==> r == Ok(rep.out))
    {
      Fetch(SpacesByRepository(repositoryID), EmptyDto, decode)
    }

    function GetMetrics(decode: Decoder<seq<Dto>>): (r: Result<seq<Dto>>)
      ensures var rep := httpClient.Send(GET, "/metrics", NoBody, [], decode);
        && (rep.err.Fail? ==> r == Err(rep.err.error))
        && (rep.err.Pass? ==> r == Ok(rep.out))
    {
      Fetch(Metrics, [], decode)
    }
  }
}
