/**
 * The mock backend: two module-level tables, `mockProducts` and `mockUsers`,
 * and the request handlers that read and edit them in place. A handler's
 * `[status, data]` pair is a `Reply`. The id of a `/products/:id` or
 * `/users/:id` request is the last `/`-separated segment of its URL.
 */
module MockApi {
  import opened Common
  import opened Entities

  // ---- The id in a request URL: `config.url?.split('/').pop() || '0'` ----

  /** `u.split('/')`: the pieces between separators; there is always at least one. */
  function Split(u: string): (parts: seq<string>)
    ensures |parts| >= 1
    ensures forall k :: 0 <= k < |parts| ==> '/' !in parts[k]
    ensures |parts| == 1 ==> parts[0] == u
    ensures |parts| > 1 ==> |parts[|parts| - 1]| < |u|
    ensures IsLastSegment(parts[|parts| - 1], u)
    decreases |u|
  {
    if u == [] then [""]
    else
      var front := Split(u[..|u| - 1]);
      var c := u[|u| - 1];
      if c == '/' then
        front + [""]
      else
        var last := front[|front| - 1];
        LastSegmentExtend(last, u);
        front[..|front| - 1] + [last + [c]]
  }

  /** A last segment of a string's front, followed by a non-separator, is the string's last segment. */
  lemma LastSegmentExtend(seg: string, u: string)
    requires u != [] && u[|u| - 1] != '/' && IsLastSegment(seg, u[..|u| - 1])
    ensures IsLastSegment(seg + [u[|u| - 1]], u)
  {
    assert u[|u| - |seg| - 1..] == u[..|u| - 1][|u| - 1 - |seg|..] + [u[|u| - 1]];
  }

  /** Joins pieces with `/` separators, the inverse of Split. */
  function Join(parts: seq<string>): string
    decreases |parts|
  {
    if parts == [] then ""
    else if |parts| == 1 then parts[0]
    else Join(parts[..|parts| - 1]) + "/" + parts[|parts| - 1]
  }

  /**
   * seg is the last segment of u: a suffix of u without `/` that is either all
   * of u or preceded by a `/`.
   */
  ghost predicate IsLastSegment(seg: string, u: string) {
    && |seg| <= |u|
    && seg == u[|u| - |seg|..]
    && '/' !in seg
    && (|seg| < |u| ==> u[|u| - |seg| - 1] == '/')
  }

  /** `u.split('/').pop()` */
  function LastSegment(u: string): (seg: string)
    ensures IsLastSegment(seg, u)
  {
    var parts := Split(u);
    parts[|parts| - 1]
  }

  /** The id a handler looks up: the last segment, or `'0'` when the URL is missing or that segment is empty. */
  function RequestId(url: Option<string>): (id: string)
    ensures id != ""
    ensures url.None? ==> id == "0"
    ensures forall seg :: url.Some? && IsLastSegment(seg, url.value) ==> id == if seg == "" then "0" else seg
  {
    match url
    case None => "0"
    case Some(u) =>
      var seg := LastSegment(u);
      forall other | IsLastSegment(other, u) ensures other == seg {
        LastSegmentUnique(other, seg, u);
      }
      if seg == "" then "0" else seg
  }

  /** Joining the pieces of a split gives back the string. */
  lemma {:induction false} JoinSplit(u: string)
    ensures Join(Split(u)) == u
    decreases |u|
  {
    if u != [] {
      var front := Split(u[..|u| - 1]);
      var c := u[|u| - 1];
      JoinSplit(u[..|u| - 1]);
      assert u == u[..|u| - 1] + [c];
      if c == '/' {
        assert Split(u) == front + [""];
        JoinAppendEmpty(front);
      } else {
        assert Split(u) == front[..|front| - 1] + [front[|front| - 1] + [c]];
        JoinExtendLast(front, c);
      }
    }
  }

  /** An empty last piece joins as a trailing separator. */
  lemma JoinAppendEmpty(parts: seq<string>)
    requires |parts| >= 1
    ensures Join(parts + [""]) == Join(parts) + "/"
  {
    assert (parts + [""])[..|parts|] == parts;
  }

  /** Appending a character to the last piece appends it to the join. */
  lemma JoinExtendLast(parts: seq<string>, c: char)
    requires |parts| >= 1
    ensures Join(parts[..|parts| - 1] + [parts[|parts| - 1] + [c]]) == Join(parts) + [c]
  {
    var extended := parts[..|parts| - 1] + [parts[|parts| - 1] + [c]];
    if |parts| > 1 {
      assert extended[..|extended| - 1] == parts[..|parts| - 1];
    }
  }

  /** A string has only one last segment. */
  lemma LastSegmentUnique(a: string, b: string, u: string)
    requires IsLastSegment(a, u) && IsLastSegment(b, u)
    ensures a == b
  {
  }

  // ---- Replies ----

  /** The data part of a reply: a record, nothing (204), or a `{ message }` object. */
  datatype ReplyBody<T> = Record(value: T) | NoContent | Message(message: string)

  /** `[status, data]` */
  datatype Reply<T> = Reply(status: int, body: ReplyBody<T>)

  const ProductNotFound := "Product not found"
  const UserNotFound := "User not found"

  // ---- The tables ----

  /** `mockProducts` and its handlers. */
  class ProductTable {
    var rows: seq<Product>

    constructor (initial: seq<Product>)
      ensures rows == initial
    {
      rows := initial;
    }

    /** GET /products */
    method List() returns (reply: Reply<seq<Product>>)
      ensures reply == Reply(200, Record(rows))
    {
      reply := Reply(200, Record(rows));
    }

    /** GET /products/:id: the first product with the id, or 404; the table is only read. */
    method GetById(url: Option<string>) returns (reply: Reply<Product>)
      ensures reply.status == 200 || reply.status == 404
      ensures (forall j :: 0 <= j < |rows| ==> rows[j].id != RequestId(url)) ==>
                reply == Reply(404, Message(ProductNotFound))
      ensures forall i :: FirstProductWithId(rows, i, RequestId(url)) ==> reply == Reply(200, Record(rows[i]))
    {
      var id := RequestId(url);
      var index := ProductIndex(rows, id);
      if index != -1 {
        reply := Reply(200, Record(rows[index]));
      } else {
        reply := Reply(404, Message(ProductNotFound));
      }
    }

    /** POST /products: appends `{ id: newId, ...body }` and returns it with 201. */
    method Post(newId: string, body: ProductBody) returns (reply: Reply<Product>)
      modifies this
      ensures rows == old(rows) + [NewProduct(newId, body)]
      ensures reply == Reply(201, Record(NewProduct(newId, body)))
    {
      var created := NewProduct(newId, body);
      rows := rows + [created];
      reply := Reply(201, Record(created));
    }

    /** PUT /products/:id: merges the body over the first matching product, in place. */
    method Put(url: Option<string>, patch: ProductPatch) returns (reply: Reply<Product>)
      modifies this
      ensures |rows| == |old(rows)|
      ensures (forall j :: 0 <= j < |old(rows)| ==> old(rows)[j].id != RequestId(url)) ==>
                rows == old(rows) && reply == Reply(404, Message(ProductNotFound))
      ensures forall i :: FirstProductWithId(old(rows), i, RequestId(url)) ==>
                rows == old(rows)[i := MergeProduct(old(rows)[i], patch)] &&
                reply == Reply(200, Record(rows[i]))
    {
      var id := RequestId(url);
      var index := ProductIndex(rows, id);
      if index != -1 {
        rows := rows[index := MergeProduct(rows[index], patch)];
        reply := Reply(200, Record(rows[index]));
      } else {
        reply := Reply(404, Message(ProductNotFound));
      }
    }

    /** DELETE /products/:id: splices out the first matching product only. */
    method Delete(url: Option<string>) returns (reply: Reply<Product>)
      modifies this
      ensures IsSubsequence(rows, old(rows))
      ensures (forall j :: 0 <= j < |old(rows)| ==> old(rows)[j].id != RequestId(url)) ==>
                rows == old(rows) && reply == Reply(404, Message(ProductNotFound))
      ensures forall i :: FirstProductWithId(old(rows), i, RequestId(url)) ==>
                rows == RemoveAt(old(rows), i) && |rows| == |old(rows)| - 1 && reply == Reply(204, NoContent)
    {
      var id := RequestId(url);
      var index := ProductIndex(rows, id);
      if index != -1 {
        RemoveAtIsSubsequence(rows, index);
        rows := RemoveAt(rows, index);
        reply := Reply(204, NoContent);
      } else {
        SubsequenceReflexive(rows);
        reply := Reply(404, Message(ProductNotFound));
      }
    }
  }

  /** `mockUsers` and its handlers. */
  class UserTable {
    var rows: seq<User>

    constructor (initial: seq<User>)
      ensures rows == initial
    {
      rows := initial;
    }

    /** GET /users */
    method List() returns (reply: Reply<seq<User>>)
      ensures reply == Reply(200, Record(rows))
    {
      reply := Reply(200, Record(rows));
    }

    /** GET /users/:id */
    method GetById(url: Option<string>) returns (reply: Reply<User>)
      ensures reply.status == 200 || reply.status == 404
      ensures (forall j :: 0 <= j < |rows| ==> rows[j].id != RequestId(url)) ==>
                reply == Reply(404, Message(UserNotFound))
      ensures forall i :: FirstUserWithId(rows, i, RequestId(url)) ==> reply == Reply(200, Record(rows[i]))
    {
      var id := RequestId(url);
      var index := UserIndex(rows, id);
      if index != -1 {
        reply := Reply(200, Record(rows[index]));
      } else {
        reply := Reply(404, Message(UserNotFound));
      }
    }

    /** POST /users */
    method Post(newId: string, body: UserBody) returns (reply: Reply<User>)
      modifies this
      ensures rows == old(rows) + [NewUser(newId, body)]
      ensures reply == Reply(201, Record(NewUser(newId, body)))
    {
      var created := NewUser(newId, body);
      rows := rows + [created];
      reply := Reply(201, Record(created));
    }

    /** PUT /users/:id */
    method Put(url: Option<string>, patch: UserPatch) returns (reply: Reply<User>)
      modifies this
      ensures |rows| == |old(rows)|
      ensures (forall j :: 0 <= j < |old(rows)| ==> old(rows)[j].id != RequestId(url)) ==>
                rows == old(rows) && reply == Reply(404, Message(UserNotFound))
      ensures forall i :: FirstUserWithId(old(rows), i, RequestId(url)) ==>
                rows == old(rows)[i := MergeUser(old(rows)[i], patch)] &&
                reply == Reply(200, Record(rows[i]))
    {
      var id := RequestId(url);
      var index := UserIndex(rows, id);
      if index != -1 {
        rows := rows[index := MergeUser(rows[index], patch)];
        reply := Reply(200, Record(rows[index]));
      } else {
        reply := Reply(404, Message(UserNotFound));
      }
    }

    /** DELETE /users/:id */
    method Delete(url: Option<string>) returns (reply: Reply<User>)
      modifies this
      ensures IsSubsequence(rows, old(rows))
      ensures (forall j :: 0 <= j < |old(rows)| ==> old(rows)[j].id != RequestId(url)) ==>
                rows == old(rows) && reply == Reply(404, Message(UserNotFound))
      ensures forall i :: FirstUserWithId(old(rows), i, RequestId(url)) ==>
                rows == RemoveAt(old(rows), i) && |rows| == |old(rows)| - 1 && reply == Reply(204, NoContent)
    {
      var id := RequestId(url);
      var index := UserIndex(rows, id);
      if index != -1 {
        RemoveAtIsSubsequence(rows, index);
        rows := RemoveAt(rows, index);
        reply := Reply(204, NoContent);
      } else {
        SubsequenceReflexive(rows);
        reply := Reply(404, Message(UserNotFound));
      }
    }
  }
}
