/** The HTTP handlers of the users module
    (src/modules/users/controller/users.controller.ts): each builds the
    request it makes of the users service from the body, the path or the
    query, checks it, awaits the service, and either sends the data or throws
    a bad-request error carrying a message. The service is a parameter: a
    function from the request to the `{data} | {error}` envelope. An error
    is recognised by the truthiness of `response.error`. */
module UsersController {
  import opened Outcomes
  import opened JsonValues
  import Strings

  /** `IUsers` as the handlers build it: each field is the body's value
      (`req.body.<name>`, read with `Find`), absent when the body lacks it. */
  datatype UserData = UserData(
    username: Option<Json>,
    name: Option<Json>,
    lastName: Option<Json>,
    email: Option<Json>,
    phone: Option<Json>,
    enabled: Option<Json>,
    profile: Option<Json>,
    atlassianEmail: Option<Json>)

  /** What a handler does last: send the data (`undefined` when there is
      none), or throw a bad-request error with the message. */
  datatype HttpReply = Sent(body: Option<Json>) | BadRequest(message: string)

  /** The request a handler makes of the service, none when it throws before
      calling it, and what it does last. */
  datatype Handling<Q> = Handling(request: Option<Q>, reply: HttpReply)

  /** A field that is present and truthy. */
  predicate Given(v: Option<Json>)
  {
    v.Some? && Truthy(v.value)
  }

  /** A service error with a non-empty message becomes a bad request with
      that message; otherwise the data is sent. */
  function ReplyOf(response: Response<Json>): (reply: HttpReply)
    ensures reply.BadRequest? <==> response.Error? && response.error != ""
    ensures reply.BadRequest? ==> reply.message == response.error
    ensures response.Data? ==> reply == Sent(Some(response.data))
  {
    match response
    case Error(e) => if e != "" then BadRequest(e) else Sent(None)
    case Data(d) => Sent(Some(d))
  }

  const CreateRejection := "Ingrese los datos correctos"
  const UpdateRejection := "Datos incorrectos"

  /** The user `createUser` builds: the five identity fields from the body,
      and `enabled` false. */
  function NewUser(body: map<string, Json>): (user: UserData)
    ensures user.enabled == Some(JBool(false))
    ensures user.profile.None? && user.atlassianEmail.None?
    ensures user.username == Find(body, "username") && user.name == Find(body, "name")
    ensures user.lastName == Find(body, "lastName") && user.email == Find(body, "email")
    ensures user.phone == Find(body, "phone")
  {
    UserData(Find(body, "username"), Find(body, "name"), Find(body, "lastName"), Find(body, "email"),
             Find(body, "phone"), Some(JBool(false)), None, None)
  }

  /** `createUser`: name, email and phone must be truthy, or the request is
      refused before the service is called. */
  function CreateUser(body: map<string, Json>, create: UserData -> Response<Json>): (h: Handling<UserData>)
    ensures h.request.Some? <==>
              Given(Find(body, "name")) && Given(Find(body, "email")) && Given(Find(body, "phone"))
    ensures h.request.None? ==> h.reply == BadRequest("Ingrese los datos correctos")
    ensures h.request.Some? ==> h.request.value == NewUser(body) && h.reply == ReplyOf(create(NewUser(body)))
  {
    var user := NewUser(body);
    if !Given(user.name) || !Given(user.email) || !Given(user.phone) then Handling(None, BadRequest(CreateRejection))
    else Handling(Some(user), ReplyOf(create(user)))
  }

  /** Whatever the body says about `enabled`, a new user is created
      disabled. */
  lemma CreateUserIgnoresEnabled(body: map<string, Json>, enabled: Json, create: UserData -> Response<Json>)
    ensures CreateUser(body["enabled" := enabled], create) == CreateUser(body, create)
    ensures CreateUser(body, create).request.Some? ==> CreateUser(body, create).request.value.enabled == Some(JBool(false))
  {
    var body' := body["enabled" := enabled];
    assert forall name :: name != "enabled" ==> Find(body', name) == Find(body, name);
    assert NewUser(body') == NewUser(body);
  }

  /** A missing or empty phone refuses the creation, whatever the rest. */
  lemma CreateUserNeedsPhone(body: map<string, Json>, create: UserData -> Response<Json>)
    requires "phone" !in body || body["phone"] == JString("")
    ensures CreateUser(body, create) == Handling(None, BadRequest("Ingrese los datos correctos"))
  {
  }

  /** The user `updateUser` builds: every field it names, taken from the
      body as it is, absent ones included. */
  function UpdatedUser(body: map<string, Json>): (user: UserData)
    ensures user.enabled == Find(body, "enabled") && user.profile == Find(body, "profile")
    ensures user.atlassianEmail == Find(body, "atlassianEmail")
    ensures user.username == Find(body, "username") && user.name == Find(body, "name")
    ensures user.lastName == Find(body, "lastName") && user.email == Find(body, "email")
    ensures user.phone == Find(body, "phone")
  {
    UserData(Find(body, "username"), Find(body, "name"), Find(body, "lastName"), Find(body, "email"),
             Find(body, "phone"), Find(body, "enabled"), Find(body, "profile"), Find(body, "atlassianEmail"))
  }

  /** `parseInt(x, 10)` of a route or query value; an absent value reads as
      the text `undefined`, which parses to `NaN`. */
  function ParseParam(value: Option<string>): (n: Option<int>)
    ensures value.None? ==> n.None?
  {
    Strings.ParseInt(Strings.Show(value))
  }

  /** `updateUser`: only name and email must be truthy; the id comes from
      the path. */
  function UpdateUser(id: Option<string>, body: map<string, Json>, update: (Option<int>, UserData) -> Response<Json>)
    : (h: Handling<(Option<int>, UserData)>)
    ensures h.request.Some? <==> Given(Find(body, "name")) && Given(Find(body, "email"))
    ensures h.request.None? ==> h.reply == BadRequest("Datos incorrectos")
    ensures h.request.Some? ==>
              && h.request.value == (ParseParam(id), UpdatedUser(body))
              && h.reply == ReplyOf(update(ParseParam(id), UpdatedUser(body)))
  {
    var user := UpdatedUser(body);
    if !Given(user.name) || !Given(user.email) then Handling(None, BadRequest(UpdateRejection))
    else Handling(Some((ParseParam(id), user)), ReplyOf(update(ParseParam(id), user)))
  }

  /** Unlike creation, an update goes through without a phone. */
  lemma UpdateUserNeedsNoPhone(id: Option<string>, body: map<string, Json>,
                               update: (Option<int>, UserData) -> Response<Json>)
    requires Given(Find(body, "name")) && Given(Find(body, "email")) && "phone" !in body
    ensures UpdateUser(id, body, update).request.Some?
    ensures !CreateUser(body, (u: UserData) => update(None, u)).request.Some?
  {
  }

  /** An id written in decimal reaches the service as that number, for
      every integer a JavaScript number holds exactly. */
  lemma UpdateUserParsesId(i: int, body: map<string, Json>, update: (Option<int>, UserData) -> Response<Json>)
    requires Strings.SafeInteger(i)
    requires Given(Find(body, "name")) && Given(Find(body, "email"))
    ensures UpdateUser(Some(Strings.IntToDecimal(i)), body, update).request.value.0 == Some(i)
  {
    Strings.ParseIntRoundTrip(i);
  }

  const DefaultPage := 1
  const DefaultPageSize := 6

  /** `getUsers`: the page and page size from the query, 1 and 6 when
      absent, each parsed base 10. */
  function GetUsers(page: Option<string>, pageSize: Option<string>, list: (Option<int>, Option<int>) -> Response<Json>)
    : (h: Handling<(Option<int>, Option<int>)>)
    ensures h.request.Some?
    ensures page.None? ==> h.request.value.0 == Some(1)
    ensures pageSize.None? ==> h.request.value.1 == Some(6)
    ensures page.Some? ==> h.request.value.0 == Strings.ParseInt(page.value)
    ensures pageSize.Some? ==> h.request.value.1 == Strings.ParseInt(pageSize.value)
    ensures h.reply == ReplyOf(list(h.request.value.0, h.request.value.1))
  {
    Strings.ParseIntRoundTrip(DefaultPage);
    Strings.ParseIntRoundTrip(DefaultPageSize);
    var p := Strings.ParseInt(if page.Some? then page.value else Strings.IntToDecimal(DefaultPage));
    var s := Strings.ParseInt(if pageSize.Some? then pageSize.value else Strings.IntToDecimal(DefaultPageSize));
    Handling(Some((p, s)), ReplyOf(list(p, s)))
  }

  /** Decimal page numbers in the query reach the service as those numbers,
      for every integer a JavaScript number holds exactly. */
  lemma GetUsersDecimalQuery(page: int, pageSize: int, list: (Option<int>, Option<int>) -> Response<Json>)
    requires Strings.SafeInteger(page) && Strings.SafeInteger(pageSize)
    ensures GetUsers(Some(Strings.IntToDecimal(page)), Some(Strings.IntToDecimal(pageSize)), list).request
            == Some((Some(page), Some(pageSize)))
  {
    Strings.ParseIntRoundTrip(page);
    Strings.ParseIntRoundTrip(pageSize);
  }

  /** `getUserById`: the id from the path, parsed base 10. */
  function GetUserById(id: Option<string>, fetch: Option<int> -> Response<Json>): (h: Handling<Option<int>>)
    ensures h.request == Some(ParseParam(id))
    ensures id.Some? ==> h.request.value == Strings.ParseInt(id.value)
    ensures h.reply == ReplyOf(fetch(h.request.value))
  {
    Handling(Some(ParseParam(id)), ReplyOf(fetch(ParseParam(id))))
  }

  /** `subscribeNotifications`: the whole body is the subscription, made for
      the authenticated user. */
  function SubscribeNotifications(userId: int, body: Json, subscribe: (int, Json) -> Response<Json>)
    : (h: Handling<(int, Json)>)
    ensures h.request == Some((userId, body))
    ensures h.reply == ReplyOf(subscribe(userId, body))
  {
    Handling(Some((userId, body)), ReplyOf(subscribe(userId, body)))
  }

  /** An id in the body does not change whose subscription it is. */
  lemma SubscriptionIsForAuthenticatedUser(userId: int, fields: map<string, Json>, claimed: Json,
                                           subscribe: (int, Json) -> Response<Json>)
    ensures SubscribeNotifications(userId, JObject(fields["id" := claimed]), subscribe).request.value.0 == userId
  {
  }

  /** No handler sends anything once the service reports an error: the
      error's message is what the bad request carries. */
  lemma ServiceErrorIsBadRequest(message: string, body: map<string, Json>, create: UserData -> Response<Json>)
    requires message != ""
    requires create(NewUser(body)) == Error(message)
    requires Given(Find(body, "name")) && Given(Find(body, "email")) && Given(Find(body, "phone"))
    ensures CreateUser(body, create).reply == BadRequest(message)
  {
  }
}
