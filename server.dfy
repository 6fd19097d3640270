/** The in-memory back end of server/server.js: the user directory with signup and login, the CORS
    origin check, and the shared board state replaced by `update_board`. */
module Backend {
  import opened Wrappers
  import opened Entities
  import Text

  // ---------------------------------------------------------------------------------------------
  // Users

  /** A stored user, password included. */
  datatype UserRecord = UserRecord(id: string, name: string, username: string, password: string, avatar: string)

  /** The failures the endpoints answer with. */
  datatype HttpError = BadRequest | Conflict | Unauthorized {
    function Status(): int {
      match this
      case BadRequest => 400
      case Conflict => 409
      case Unauthorized => 401
    }
  }

  /** `{ ...u, password: undefined }`: the password is not serialised. Server users have no `_id`. */
  function Strip(u: UserRecord): (r: User)
    ensures r.mongoId == "" && r.id == u.id && r.name == u.name && r.username == u.username && r.avatar == u.avatar
  {
    User("", u.id, u.name, u.username, u.avatar)
  }

  /** `words.map(w => w[0]).join('')`: the first character of every word; an empty word adds nothing. */
  function Initials(words: seq<string>): (r: string)
    ensures |r| <= |words|
    ensures (forall i :: 0 <= i < |words| ==> words[i] != "") ==> |r| == |words| && forall i :: 0 <= i < |words| ==> r[i] == words[i][0]
    ensures (forall i :: 0 <= i < |words| ==> words[i] == "") ==> r == ""
  {
    if words == [] then ""
    else (if words[0] == "" then "" else [words[0][0]]) + Initials(words[1..])
  }

  /** `name.split(' ').map(w => w[0]).join('').toUpperCase()`. */
  function Avatar(name: string): (r: string)
    ensures |r| <= |Text.Split(name, ' ')|
  {
    Text.ToUpper(Initials(Text.Split(name, ' ')))
  }

  /** Every word of `name` contributes its first character, upper-cased. */
  lemma AvatarOfWords(words: seq<string>)
    requires |words| >= 1
    requires forall i :: 0 <= i < |words| ==> words[i] != "" && ' ' !in words[i]
    ensures var r := Avatar(Text.Join(words, ' '));
      |r| == |words| && forall i :: 0 <= i < |words| ==> r[i] == Text.UpperChar(words[i][0])
  {
    Text.SplitJoin(words, ' ');
  }

  /** The `id` of the `n`-th user: `'u' + n`. */
  function UserId(n: nat): string {
    "u" + Text.NatToString(n)
  }

  /** The ids are `u1`, `u2`, ... in order. */
  predicate SequentialIds(users: seq<UserRecord>) {
    forall i :: 0 <= i < |users| ==> users[i].id == UserId(i + 1)
  }

  predicate UniqueUsernames(users: seq<UserRecord>) {
    forall i, j :: 0 <= i < j < |users| ==> users[i].username != users[j].username
  }

  /** Sequential ids are unique. */
  lemma SequentialIdsUnique(users: seq<UserRecord>)
    requires SequentialIds(users)
    ensures forall i, j :: 0 <= i < j < |users| ==> users[i].id != users[j].id
  {
    forall i, j | 0 <= i < j < |users| ensures users[i].id != users[j].id {
      if users[i].id == users[j].id {
        assert UserId(i + 1)[1..] == Text.NatToString(i + 1);
        assert UserId(j + 1)[1..] == Text.NatToString(j + 1);
        Text.NatToStringInjective(i + 1, j + 1);
      }
    }
  }

  /** `users.find(u => u.username === username)`. */
  predicate UsernameTaken(users: seq<UserRecord>, username: string) {
    exists i :: 0 <= i < |users| && users[i].username == username
  }

  /** The user list after a signup request, with the response. */
  function SignupResult(users: seq<UserRecord>, name: string, username: string, password: string): (r: (seq<UserRecord>, Result<User, HttpError>))
    ensures name == "" || username == "" || password == "" ==> r == (users, Failure(BadRequest))
    ensures name != "" && username != "" && password != "" && UsernameTaken(users, username) ==> r == (users, Failure(Conflict))
    ensures name != "" && username != "" && password != "" && !UsernameTaken(users, username) ==>
      var u := UserRecord(UserId(|users| + 1), name, username, password, Avatar(name));
      r == (users + [u], Success(Strip(u)))
  {
    if name == "" || username == "" || password == "" then (users, Failure(BadRequest))
    else if exists i :: 0 <= i < |users| && users[i].username == username then (users, Failure(Conflict))
    else
      var u := UserRecord(UserId(|users| + 1), name, username, password, Avatar(name));
      (users + [u], Success(Strip(u)))
  }

  /** Signup keeps ids sequential and usernames unique. */
  lemma SignupKeepsInvariant(users: seq<UserRecord>, name: string, username: string, password: string)
    requires SequentialIds(users) && UniqueUsernames(users)
    ensures var after := SignupResult(users, name, username, password).0;
      SequentialIds(after) && UniqueUsernames(after)
  {
  }

  /** The index of the first user with exactly this username and password. */
  function FindLogin(users: seq<UserRecord>, username: string, password: string): (r: Option<nat>)
    ensures r.Some? ==> r.value < |users| && users[r.value].username == username && users[r.value].password == password
    ensures r.Some? ==> forall k :: 0 <= k < r.value ==> !(users[k].username == username && users[k].password == password)
    ensures r.None? ==> forall k :: 0 <= k < |users| ==> !(users[k].username == username && users[k].password == password)
  {
    if users == [] then None
    else if users[0].username == username && users[0].password == password then Some(0)
    else
      match FindLogin(users[1..], username, password)
      case None => None
      case Some(k) => Some(k + 1)
  }

  /** `/api/login`: the first user with these exact credentials, without the password; 401 otherwise. */
  function Login(users: seq<UserRecord>, username: string, password: string): (r: Result<User, HttpError>)
    ensures r.Success? <==> exists i :: 0 <= i < |users| && users[i].username == username && users[i].password == password
    ensures r.Failure? ==> r.error == Unauthorized
    ensures r.Success? ==> exists i :: 0 <= i < |users| && users[i].username == username && users[i].password == password && r.value == Strip(users[i])
  {
    match FindLogin(users, username, password)
    case None => Failure(Unauthorized)
    case Some(i) => Success(Strip(users[i]))
  }

  /** With unique usernames, the user who logs in is the one with that username. */
  lemma LoginFindsTheUser(users: seq<UserRecord>, i: nat)
    requires UniqueUsernames(users) && i < |users|
    ensures Login(users, users[i].username, users[i].password) == Success(Strip(users[i]))
  {
    var r := FindLogin(users, users[i].username, users[i].password);
    assert r.Some? && r.value == i;
  }

  /** A user who has just signed up can log in with the same credentials. */
  lemma SignupThenLogin(users: seq<UserRecord>, name: string, username: string, password: string)
    requires UniqueUsernames(users)
    requires SignupResult(users, name, username, password).1.Success?
    ensures var (after, res) := SignupResult(users, name, username, password);
      Login(after, username, password) == res
  {
    var after := SignupResult(users, name, username, password).0;
    LoginFindsTheUser(after, |users|);
  }

  /** `/api/users`: every user, in order, without the password. */
  function PublicUsers(users: seq<UserRecord>): (r: seq<User>)
    ensures |r| == |users|
    ensures forall i :: 0 <= i < |r| ==> r[i] == Strip(users[i])
  {
    if users == [] then [] else [Strip(users[0])] + PublicUsers(users[1..])
  }

  // ---------------------------------------------------------------------------------------------
  // CORS

  /** The allow-list used when `FRONTEND_URL` is unset. */
  const DefaultFrontend: string := "http://localhost:5173"

  /** `(process.env.FRONTEND_URL || 'http://localhost:5173').split(',')`; "" stands for unset. */
  function AllowedOrigins(frontendUrl: string): (r: seq<string>)
    ensures |r| >= 1
  {
    Text.Split(if frontendUrl != "" then frontendUrl else DefaultFrontend, ',')
  }

  /** `list.indexOf(x)`. */
  function IndexOf(list: seq<string>, x: string): (r: int)
    ensures -1 <= r < |list|
    ensures r >= 0 ==> list[r] == x
    ensures r == -1 <==> x !in list
  {
    if list == [] then -1
    else if list[0] == x then 0
    else
      var r := IndexOf(list[1..], x);
      if r == -1 then -1 else r + 1
  }

  /** The `origin` callback: an absent origin passes, any other must be on the list. */
  function OriginAllowed(allowed: seq<string>, origin: string): (ok: bool)
    ensures ok <==> origin == "" || origin in allowed
  {
    if origin == "" then true
    else IndexOf(allowed, origin) != -1
  }

  /** With `FRONTEND_URL` set to comma-joined comma-free entries, exactly those entries pass. */
  lemma OriginsFromEnvironment(entries: seq<string>, origin: string)
    requires |entries| >= 1 && Text.Join(entries, ',') != ""
    requires forall i :: 0 <= i < |entries| ==> ',' !in entries[i]
    ensures OriginAllowed(AllowedOrigins(Text.Join(entries, ',')), origin) <==> origin == "" || origin in entries
  {
    Text.SplitJoin(entries, ',');
  }

  /** Unset, only the local development front end passes. */
  lemma DefaultOrigins(origin: string)
    ensures OriginAllowed(AllowedOrigins(""), origin) <==> origin == "" || origin == DefaultFrontend
  {
    Text.SplitJoin([DefaultFrontend], ',');
  }

  // ---------------------------------------------------------------------------------------------
  // Seed data

  function SeedUsers(): seq<UserRecord> {
    [ UserRecord("u1", "Nikhil Yadav", "nikhilyadav", "password1", "NY"),
      UserRecord("u2", "Emitrr", "emitrr", "password", "E"),
      UserRecord("u3", "Priya Sharma", "priyasharma", "password2", "PS"),
      UserRecord("u4", "Aman Gupta", "amangupta", "password3", "AG") ]
  }

  /** The seed users satisfy the directory's invariant. */
  lemma SeedUsersValid()
    ensures SequentialIds(SeedUsers()) && UniqueUsernames(SeedUsers())
  {
    assert Text.NatToString(1) == "1" && Text.NatToString(2) == "2";
    assert Text.NatToString(3) == "3" && Text.NatToString(4) == "4";
  }

  /** The avatar of a two-word name is the two upper-cased initials. */
  lemma AvatarOfTwoWords(first: string, last: string)
    requires first != "" && last != "" && ' ' !in first && ' ' !in last
    ensures Avatar(first + " " + last) == [Text.UpperChar(first[0]), Text.UpperChar(last[0])]
  {
    assert Text.Join([first, last], ' ') == first + " " + last;
    AvatarOfWords([first, last]);
  }

  lemma AvatarNY()
    ensures Avatar("Nikhil Yadav") == "NY"
  {
    AvatarOfTwoWords("Nikhil", "Yadav");
    assert "Nikhil" + " " + "Yadav" == "Nikhil Yadav";
  }

  lemma AvatarE()
    ensures Avatar("Emitrr") == "E"
  {
    AvatarOfWords(["Emitrr"]);
  }

  lemma AvatarPS()
    ensures Avatar("Priya Sharma") == "PS"
  {
    AvatarOfTwoWords("Priya", "Sharma");
    assert "Priya" + " " + "Sharma" == "Priya Sharma";
  }

  lemma AvatarAG()
    ensures Avatar("Aman Gupta") == "AG"
  {
    AvatarOfTwoWords("Aman", "Gupta");
    assert "Aman" + " " + "Gupta" == "Aman Gupta";
  }

  /** The seed avatars are what signup would derive from the names. */
  lemma SeedAvatarsDerived()
    ensures forall i :: 0 <= i < |SeedUsers()| ==> SeedUsers()[i].avatar == Avatar(SeedUsers()[i].name)
  {
    var seeds := SeedUsers();
    forall i | 0 <= i < |seeds| ensures seeds[i].avatar == Avatar(seeds[i].name) {
      if i == 0 {
        AvatarNY();
      } else if i == 1 {
        AvatarE();
      } else if i == 2 {
        AvatarPS();
      } else {
        AvatarAG();
      }
    }
  }

  /** 2024-01-15T10:00:00Z, 2024-01-15T10:30:00Z and 2024-02-01, in milliseconds since the epoch. */
  const BoardCreated: Timestamp := 1705312800000
  const TaskCreated: Timestamp := 1705314600000
  const TaskDue: Timestamp := 1706745600000

  function SeedBoards(): seq<Board> {
    [ Board("1", "Website Redesign Project", "Complete redesign of with modern UI/UX", BoardCreated,
        [ Column("1", "To Do", BoardCreated), Column("2", "In Progress", BoardCreated),
          Column("3", "Review", BoardCreated), Column("4", "Done", BoardCreated) ],
        [ Task("1", "Create wireframes for homepage",
            "Design **wireframes** for the new homepage layout with focus on *user experience*",
            High, Some(TaskDue), AssigneeList(["u1", "u2"]), IdRef("u2"), "1", TaskCreated, TaskCreated) ]) ]
  }

  // ---------------------------------------------------------------------------------------------
  // The server

  class Server {
    var users: seq<UserRecord>
    /** The `boards` of `boardData`. */
    var boardData: seq<Board>
    const allowedOrigins: seq<string>

    ghost predicate Valid()
      reads this
    {
      SequentialIds(users) && UniqueUsernames(users)
    }

    /** Start-up; `frontendUrl` is `FRONTEND_URL`, "" when unset. */
    constructor (frontendUrl: string)
      ensures users == SeedUsers() && boardData == SeedBoards()
      ensures allowedOrigins == AllowedOrigins(frontendUrl)
      ensures Valid()
    {
      users := SeedUsers();
      boardData := SeedBoards();
      allowedOrigins := AllowedOrigins(frontendUrl);
      SeedUsersValid();
    }

    /** `POST /api/signup`. */
    method Signup(name: string, username: string, password: string) returns (res: Result<User, HttpError>)
      requires Valid()
      modifies this`users
      ensures (users, res) == SignupResult(old(users), name, username, password)
      ensures res.Failure? ==> users == old(users)
      ensures res.Success? ==> |users| == |old(users)| + 1 && res.value == Strip(users[|users| - 1])
      ensures Valid()
    {
      if name == "" || username == "" || password == "" {
        return Failure(BadRequest);
      }
      if UsernameTaken(users, username) {
        return Failure(Conflict);
      }
      var u := UserRecord(UserId(|users| + 1), name, username, password, Avatar(name));
      users := users + [u];
      res := Success(Strip(u));
    }

    /** `POST /api/login`. */
    function LoginRequest(username: string, password: string): Result<User, HttpError>
      reads this
    {
      Login(users, username, password)
    }

    /** `GET /api/users`. */
    function ListUsers(): seq<User>
      reads this
    {
      PublicUsers(users)
    }

    /** `GET /api/boards`, and the `initial_data` sent to a connecting client. */
    function Boards(): seq<Board>
      reads this
    {
      boardData
    }

    /** The CORS check on a request's `Origin` header ("" when absent). */
    function AcceptsOrigin(origin: string): bool
      reads this
    {
      OriginAllowed(allowedOrigins, origin)
    }

    /** `update_board`: the submitted state replaces the stored one and is broadcast as sent. */
    method UpdateBoard(newBoardData: seq<Board>) returns (broadcast: seq<Board>)
      modifies this`boardData
      ensures boardData == newBoardData && broadcast == newBoardData
    {
      boardData := newBoardData;
      broadcast := boardData;
    }
  }

  /** Two clients write in turn: the second write wins and is what a new client receives. */
  method LastWriteWins(s: Server, first: seq<Board>, second: seq<Board>) returns (received: seq<Board>)
    modifies s
    ensures received == second && s.Boards() == second
  {
    var _ := s.UpdateBoard(first);
    var _ := s.UpdateBoard(second);
    received := s.Boards();
  }
}
