/** The leaderboard API: the guard chains of `submit`, `submitlink`, `remove` and `edit`,
    and the co-op partner pairing that `submit` records in the week's `partners` map. The
    leaderboard utility, the demo parser and verifier, the category and user lookups are
    outside; their answers are inputs, and the utility call a request ends in is returned as
    an `Action`. */
module Leaderboard {
  import opened Common

  /** The error strings the API returns, and `TypeError` for a property read on `undefined`. */
  datatype Code =
    | ErrLocked | ErrProof | ErrLogin | ErrProfile | ErrBanned | ErrArgs | ErrNote | ErrFile
    | ErrIllegal | ErrSteamId | ErrNotCoop | ErrPartner | ErrNoPartner | ErrCommand
    | TypeError

  /** A category's `proof` field: `"video"`, `"demo"`, or anything else (both accepted). */
  datatype ProofKind = VideoOnly | DemoOnly | EitherProof

  /** What `categories(["get", category])` returns. */
  datatype CategoryData = CategoryData(lock: bool, proof: ProofKind, points: bool, coop: bool)

  /** A profile's `banned` field: `true`/`false`, or the time a ban ends. */
  datatype Ban = BanFlag(flag: bool) | BanUntil(until: int)

  datatype Profile = Profile(banned: Ban)

  /** The logged-in user `whoami` returns. */
  datatype User = User(steamid: SteamId, username: string)

  /** What `demo(["verify", path])` answers. */
  datatype Verdict = Valid | Ppnf | Rejected(reason: string)

  /** What `demo(["parse", path])` returns; a missing or empty `partner` is `None`. */
  datatype DemoData = DemoData(steamid: SteamId, partner: Option<SteamId>, time: int, portals: int)

  /** The leaderboard utility call a request ends in. */
  datatype Action =
    | AddDemo(category: string, steamid: SteamId, time: int, note: string, portals: int)
    | AddLink(category: string, steamid: SteamId, timeArg: string, note: string, portalsArg: string)
    | Remove(category: string, steamid: SteamId)
    | Edit(category: string, steamid: SteamId, newNote: Option<string>)

  /** What the API returns: an error string, the leaderboard (`get`), the parsed demo or the
      link run together with the utility call made, or `"SUCCESS"` with the call made. */
  datatype Reply =
    | Error(code: Code)
    | Board
    | Submitted(demo: DemoData, action: Action)
    | Linked(steamid: SteamId, time: string, portals: string, action: Action, link: string)
    | Done(action: Action)

  /** Everything a request depends on besides the partner map: the arguments, the answers of
      the lookups, the clock, whether a `demo` file was uploaded, and the demo's verdict and
      parsed contents. */
  datatype Request = Request(
    args: seq<string>,
    categories: string -> Option<CategoryData>,
    user: Option<User>,
    profiles: map<SteamId, Profile>,
    now: nat,
    demoUploaded: bool,
    verdict: Verdict,
    demo: DemoData)

  /** `args[i]`, `None` when the request has no such argument. */
  function Arg(args: seq<string>, i: nat): (a: Option<string>)
    ensures a.Some? <==> i < |args|
    ensures a.Some? ==> a.value == args[i]
  {
    if i < |args| then Some(args[i]) else None
  }

  /** The category named by `args[1]`, looked up only when that argument is a non-empty
      string; `None` stands for `categoryData` being `undefined`. */
  function CategoryOf(req: Request): Option<CategoryData>
  {
    match Arg(req.args, 1)
    case Some(c) => if c != "" then req.categories(c) else None
    case None => None
  }

  /** `args[1]` as the string the utility receives (empty when absent). */
  function CategoryName(req: Request): string
  {
    match Arg(req.args, 1)
    case Some(c) => c
    case None => ""
  }

  /** `profile.banned === true || profile.banned > Date.now()`. */
  predicate Banned(b: Ban, now: nat)
  {
    match b
    case BanFlag(flag) => flag
    case BanUntil(until) => until > now
  }

  /** The demo must be verified: a points category, or the category `ppnf`. */
  predicate MustVerify(cat: CategoryData, category: string)
  {
    cat.points || category == "ppnf"
  }

  /** The verdict admits the run: `VALID`, or `PPNF` in the category `ppnf`. */
  predicate VerdictAdmits(verdict: Verdict, category: string)
  {
    verdict == Valid || (verdict == Ppnf && category == "ppnf")
  }

  // ---------------------------------------------------------------------------------------
  // submit

  /** The guards of `submit` that do not look at the partner map, in the source's order;
      `None` when all pass. Of the partner checks only `ERR_NOTCOOP` and `ERR_NOPARTNER` are
      here: `ERR_PARTNER` is `PairPartners` failing. */
  function SubmitGuard(req: Request): (r: Option<Code>)
    ensures r == None <==>
              && CategoryOf(req).Some?
              && var cat := CategoryOf(req).value;
              && !cat.lock && cat.proof != VideoOnly
              && req.user.Some? && req.user.value.steamid in req.profiles
              && !Banned(req.profiles[req.user.value.steamid].banned, req.now)
              && Arg(req.args, 2).Some? && |req.args[2]| <= 200
              && req.demoUploaded
              && (MustVerify(cat, CategoryName(req)) ==> VerdictAdmits(req.verdict, CategoryName(req)))
              && req.demo.steamid == req.user.value.steamid
              && (req.demo.partner.Some? <==> cat.coop)
    ensures r == Some(TypeError) <==> CategoryOf(req).None?
    ensures r == Some(ErrLocked) <==> CategoryOf(req).Some? && CategoryOf(req).value.lock
    ensures r == Some(ErrLogin) ==> req.user.None?
    ensures r == Some(ErrSteamId) ==> req.user.Some? && req.demo.steamid != req.user.value.steamid
    ensures r != Some(ErrPartner) && r != Some(ErrCommand)
  {
    match CategoryOf(req)
    case None => Some(TypeError)
    case Some(cat) =>
      var category := CategoryName(req);
      if cat.lock then Some(ErrLocked)
      else if cat.proof == VideoOnly then Some(ErrProof)
      else if req.user.None? then Some(ErrLogin)
      else if req.user.value.steamid !in req.profiles then Some(ErrProfile)
      else if Banned(req.profiles[req.user.value.steamid].banned, req.now) then Some(ErrBanned)
      else if Arg(req.args, 2).None? then Some(ErrArgs)
      else if |req.args[2]| > 200 then Some(ErrNote)
      else if !req.demoUploaded then Some(ErrFile)
      else if MustVerify(cat, category) && !VerdictAdmits(req.verdict, category) then Some(ErrIllegal)
      else if req.user.value.steamid != req.demo.steamid then Some(ErrSteamId)
      else if req.demo.partner.Some? && !cat.coop then Some(ErrNotCoop)
      else if req.demo.partner.None? && cat.coop then Some(ErrNoPartner)
      else None
  }

  /** The lock and proof checks of `submit` pass: the category exists, is unlocked and
      accepts demos. */
  predicate TakesDemos(req: Request)
  {
    CategoryOf(req).Some? && !CategoryOf(req).value.lock && CategoryOf(req).value.proof != VideoOnly
  }

  /** The checks up to the ban pass as well: the user is logged in, has a profile and is not
      banned. */
  predicate MaySubmit(req: Request)
  {
    && TakesDemos(req) && req.user.Some? && req.user.value.steamid in req.profiles
    && !Banned(req.profiles[req.user.value.steamid].banned, req.now)
  }

  /** The checks up to the note pass as well: a note of at most 200 characters was given. */
  predicate NoteGiven(req: Request)
  {
    MaySubmit(req) && |req.args| > 2 && |req.args[2]| <= 200
  }

  /** The checks up to the verdict pass as well: a demo file came with the request and, where
      the demo must be verified, the verdict admits it. */
  predicate DemoAdmitted(req: Request)
  {
    && NoteGiven(req) && req.demoUploaded
    && (MustVerify(CategoryOf(req).value, CategoryName(req)) ==> VerdictAdmits(req.verdict, CategoryName(req)))
  }

  /** The checks up to the sender pass as well: the demo was recorded by the logged-in user. */
  predicate OwnDemo(req: Request)
  {
    DemoAdmitted(req) && req.demo.steamid == req.user.value.steamid
  }

  /** The guards of `submit` in order: each error is returned exactly when its check fails and
      every earlier one passed. */
  lemma SubmitGuardOrder(req: Request)
    requires CategoryOf(req).Some?
    ensures var cat := CategoryOf(req).value;
            var r := SubmitGuard(req);
            var u := req.user;
      && (r == Some(ErrProof) <==> !cat.lock && cat.proof == VideoOnly)
      && (r == Some(ErrLogin) <==> TakesDemos(req) && u.None?)
      && (r == Some(ErrProfile) <==> TakesDemos(req) && u.Some? && u.value.steamid !in req.profiles)
      && (r == Some(ErrBanned) <==>
            TakesDemos(req) && u.Some? && u.value.steamid in req.profiles
            && Banned(req.profiles[u.value.steamid].banned, req.now))
      && (r == Some(ErrArgs) <==> MaySubmit(req) && |req.args| <= 2)
      && (r == Some(ErrNote) <==> MaySubmit(req) && |req.args| > 2 && |req.args[2]| > 200)
      && (r == Some(ErrFile) <==> NoteGiven(req) && !req.demoUploaded)
      && (r == Some(ErrIllegal) <==>
            NoteGiven(req) && req.demoUploaded
            && MustVerify(cat, CategoryName(req)) && !VerdictAdmits(req.verdict, CategoryName(req)))
      && (r == Some(ErrSteamId) <==> DemoAdmitted(req) && req.demo.steamid != u.value.steamid)
      && (r == Some(ErrNotCoop) <==> OwnDemo(req) && req.demo.partner.Some? && !cat.coop)
      && (r == Some(ErrNoPartner) <==> OwnDemo(req) && req.demo.partner.None? && cat.coop)
      && (r == None <==> OwnDemo(req) && (req.demo.partner.Some? <==> cat.coop))
  {
  }

  /** How the verdict decides `ERR_ILLEGAL` once the note and the file are in: a rejected demo
      is illegal in every category that must be verified, `PPNF` is illegal in a points
      category other than `ppnf`, `VALID` never is, and in a category that need not be verified
      the verdict is not consulted. Before that point `ERR_ILLEGAL` cannot be the reply. */
  lemma VerdictRule(req: Request)
    requires CategoryOf(req).Some?
    ensures var cat := CategoryOf(req).value;
            var category := CategoryName(req);
            var reached := NoteGiven(req) && req.demoUploaded;
            var illegal := SubmitGuard(req) == Some(ErrIllegal);
      && (!reached ==> !illegal)
      && (reached && req.verdict.Rejected? && MustVerify(cat, category) ==> illegal)
      && (reached && req.verdict == Ppnf ==> (illegal <==> cat.points && category != "ppnf"))
      && (req.verdict == Valid ==> !illegal)
      && (!MustVerify(cat, category) ==> !illegal)
  {
  }

  // ---------------------------------------------------------------------------------------
  // Co-op partners

  /** Every player recorded in `partners` is recorded as the partner of its partner. */
  predicate Symmetric(partners: map<SteamId, SteamId>)
  {
    forall x :: x in partners ==> partners[x] in partners && partners[partners[x]] == x
  }

  /** `a` and `b` are recorded as each other's partner. */
  predicate Paired(partners: map<SteamId, SteamId>, a: SteamId, b: SteamId)
  {
    a in partners && partners[a] == b && b in partners && partners[b] == a
  }

  /** The pairing rule of `submit` for a co-op run of `a` with `b`: a pair neither of whom is
      recorded is recorded both ways; a pair already recorded both ways is accepted as it is;
      anything else is `ERR_PARTNER` (`None`). */
  function PairPartners(partners: map<SteamId, SteamId>, a: SteamId, b: SteamId): (r: Option<map<SteamId, SteamId>>)
    ensures r.Some? <==> (a !in partners && b !in partners) || Paired(partners, a, b)
    ensures r.Some? ==> Paired(r.value, a, b) && r.value.Keys == partners.Keys + {a, b}
    ensures r.Some? ==> forall x :: x in partners && x != a && x != b ==> r.value[x] == partners[x]
  {
    if !(a in partners || b in partners) then Some(partners[a := b][b := a])
    else if !Paired(partners, a, b) then None
    else Some(partners)
  }

  /** Pairing keeps the partner map symmetric. */
  lemma PairKeepsSymmetric(partners: map<SteamId, SteamId>, a: SteamId, b: SteamId)
    requires Symmetric(partners) && PairPartners(partners, a, b).Some?
    ensures Symmetric(PairPartners(partners, a, b).value)
  {
    var p := PairPartners(partners, a, b).value;
    forall x | x in p ensures p[x] in p && p[p[x]] == x {
      if x != a && x != b {
        assert x in partners;
        if partners[x] == a || partners[x] == b {
          assert partners[partners[x]] == x;
          assert a in partners || b in partners;
        }
      }
    }
  }

  /** Submitting the same pair again, either way round, is accepted and changes nothing. */
  lemma PairIdempotent(partners: map<SteamId, SteamId>, a: SteamId, b: SteamId)
    requires PairPartners(partners, a, b).Some?
    ensures var p := PairPartners(partners, a, b).value;
              PairPartners(p, a, b) == Some(p) && PairPartners(p, b, a) == Some(p)
  {
  }

  /** Which of the two partners submits makes no difference. */
  lemma {:induction false} PairOrderInsensitive(partners: map<SteamId, SteamId>, a: SteamId, b: SteamId)
    ensures PairPartners(partners, a, b) == PairPartners(partners, b, a)
  {
    if !(a in partners || b in partners) && a != b {
      assert partners[a := b][b := a] == partners[b := a][a := b];
    }
  }

  /** A player recorded with a different partner cannot submit a co-op run with anyone new. */
  lemma PairedPlayersStay(partners: map<SteamId, SteamId>, a: SteamId, b: SteamId)
    requires a in partners && partners[a] != b
    ensures PairPartners(partners, a, b) == None && PairPartners(partners, b, a) == None
  {
  }

  /** `epochtal.data.week`, reduced to the partner map `submit` updates in place. */
  class Week {
    var partners: map<SteamId, SteamId>

    constructor (partners: map<SteamId, SteamId>)
      ensures this.partners == partners
    {
      this.partners := partners;
    }

    /** The partner registration of a co-op run of `a` with `b`: both directions are written
        one after the other when neither is recorded, and the request fails unless both
        directions already match otherwise. */
    method Pair(a: SteamId, b: SteamId) returns (ok: bool)
      modifies this
      ensures ok <==> PairPartners(old(partners), a, b).Some?
      ensures ok ==> partners == PairPartners(old(partners), a, b).value
      ensures !ok ==> partners == old(partners)
      ensures Symmetric(old(partners)) ==> Symmetric(partners)
    {
      if !(a in partners || b in partners) {
        partners := partners[a := b];
        partners := partners[b := a];
        ok := true;
      } else if !(a in partners && partners[a] == b) || !(b in partners && partners[b] == a) {
        ok := false;
      } else {
        ok := true;
      }
      if ok && Symmetric(old(partners)) {
        PairKeepsSymmetric(old(partners), a, b);
      }
    }

    /** `submit`: the guards, then for a co-op run the pairing, then the leaderboard entry
        for the parsed demo. */
    method Submit(req: Request) returns (r: Reply)
      modifies this
      ensures SubmitGuard(req).Some? ==> r == Error(SubmitGuard(req).value) && partners == old(partners)
      ensures SubmitGuard(req).None? && req.demo.partner.Some? ==>
                var paired := PairPartners(old(partners), req.demo.steamid, req.demo.partner.value);
                if paired.None? then r == Error(ErrPartner) && partners == old(partners)
                else partners == paired.value && r == Accepted(req)
      ensures SubmitGuard(req).None? && req.demo.partner.None? ==>
                partners == old(partners) && r == Accepted(req)
      ensures r.Submitted? ==> req.user.Some? && r.demo.steamid == req.user.value.steamid
      ensures Symmetric(old(partners)) ==> Symmetric(partners)
    {
      var guard := SubmitGuard(req);
      if guard.Some? {
        return Error(guard.value);
      }
      if req.demo.partner.Some? {
        var ok := Pair(req.demo.steamid, req.demo.partner.value);
        if !ok {
          return Error(ErrPartner);
        }
      }
      r := Accepted(req);
    }
  }

  /** The reply of an admitted `submit`: the parsed demo, added to the category with the note. */
  function Accepted(req: Request): Reply
    requires Arg(req.args, 2).Some?
  {
    Submitted(req.demo, AddDemo(CategoryName(req), req.demo.steamid, req.demo.time, req.args[2], req.demo.portals))
  }

  // ---------------------------------------------------------------------------------------
  // submitlink, remove, edit and the dispatcher

  /** `submitlink`: locked, then demo-only proof, then login, then the loop that wants
      `args[2]` to `args[5]` (link, note, time, portals); the run is added as given, with the
      time and portals as the strings they arrived as. */
  method SubmitLink(req: Request) returns (r: Reply)
    ensures CategoryOf(req).None? ==> r == Error(TypeError)
    ensures CategoryOf(req).Some? ==>
              var cat := CategoryOf(req).value;
              if cat.lock then r == Error(ErrLocked)
              else if cat.proof == DemoOnly then r == Error(ErrProof)
              else if req.user.None? then r == Error(ErrLogin)
              else if |req.args| < 6 then r == Error(ErrArgs)
              else
                var steamid := req.user.value.steamid;
                r == Linked(steamid, req.args[4], req.args[5],
                            AddLink(CategoryName(req), steamid, req.args[4], req.args[3], req.args[5]),
                            req.args[2])
  {
    var category := CategoryOf(req);
    if category.None? {
      return Error(TypeError);
    }
    var cat := category.value;
    if cat.lock {
      return Error(ErrLocked);
    }
    if cat.proof == DemoOnly {
      return Error(ErrProof);
    }
    if req.user.None? {
      return Error(ErrLogin);
    }
    for i := 2 to 6
      invariant i <= |req.args|
    {
      if Arg(req.args, i).None? {
        return Error(ErrArgs);
      }
    }
    var link, note, time, portals := req.args[2], req.args[3], req.args[4], req.args[5];
    var steamid := req.user.value.steamid;
    r := Linked(steamid, time, portals, AddLink(CategoryName(req), steamid, time, note, portals), link);
  }

  /** `remove` and `edit`: the lock is checked before the login; then the leaderboard entry of
      the logged-in user is removed, or its note replaced by `args[2]`. */
  function RemoveOrEdit(req: Request, edit: bool): (r: Reply)
    ensures CategoryOf(req).None? ==> r == Error(TypeError)
    ensures CategoryOf(req).Some? && CategoryOf(req).value.lock ==> r == Error(ErrLocked)
    ensures CategoryOf(req).Some? && !CategoryOf(req).value.lock && req.user.None? ==> r == Error(ErrLogin)
    ensures r.Done? <==> CategoryOf(req).Some? && !CategoryOf(req).value.lock && req.user.Some?
    ensures r.Done? ==>
              && r.action.category == CategoryName(req) && r.action.steamid == req.user.value.steamid
              && (edit ==> r.action.Edit? && r.action.newNote == Arg(req.args, 2))
              && (!edit ==> r.action.Remove?)
  {
    match CategoryOf(req)
    case None => Error(TypeError)
    case Some(cat) =>
      if cat.lock then Error(ErrLocked)
      else if req.user.None? then Error(ErrLogin)
      else if edit then Done(Edit(CategoryName(req), req.user.value.steamid, Arg(req.args, 2)))
      else Done(Remove(CategoryName(req), req.user.value.steamid))
  }

  /** The API entry point: `args[0]` selects the command; anything else is `ERR_COMMAND`. */
  method Handle(week: Week, req: Request) returns (r: Reply)
    modifies week
    ensures Arg(req.args, 0) == Some("get") ==> r == Board
    ensures Arg(req.args, 0) !in {Some("get"), Some("submit"), Some("submitlink"), Some("remove"), Some("edit")} ==>
              r == Error(ErrCommand)
    ensures Arg(req.args, 0) != Some("submit") ==> week.partners == old(week.partners)
    ensures Arg(req.args, 0) in {Some("remove"), Some("edit")} ==>
              r == RemoveOrEdit(req, Arg(req.args, 0) == Some("edit"))
    ensures Symmetric(old(week.partners)) ==> Symmetric(week.partners)
  {
    var command := Arg(req.args, 0);
    if command == Some("get") {
      r := Board;
    } else if command == Some("submit") {
      r := week.Submit(req);
    } else if command == Some("submitlink") {
      r := SubmitLink(req);
    } else if command == Some("remove") {
      r := RemoveOrEdit(req, false);
    } else if command == Some("edit") {
      r := RemoveOrEdit(req, true);
    } else {
      r := Error(ErrCommand);
    }
  }
}
