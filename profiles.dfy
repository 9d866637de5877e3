/** The profile controller over the profile table, its two child tables
    (work experiences and social links), the view table its deletion
    cascades to, and the QR images on disk.

    Ids are numbers handed out by a counter; a QR image is named after its
    profile's id. Each `$transaction` is one atomic step: a body that throws
    part-way leaves every table as it was. */
module Profiles {
  import opened Common
  import opened Seqs
  import opened Children
  import opened Slug

  datatype Profile = Profile(
    id: nat,
    userId: nat,
    slug: string,
    fullName: string,
    title: Option<string>,
    phone: Option<string>,
    address: Option<string>,
    email: string,
    avatarUrl: Option<string>,
    qrCodeUrl: Option<string>,
    profileUrl: Option<string>,
    isPublished: bool)

  /** The columns of a work experience besides its profile and position;
      dates are kept as the text the client sent. */
  datatype ExperienceData = ExperienceData(
    company: Option<string>,
    position: Option<string>,
    startDate: Option<string>,
    endDate: Option<string>,
    description: Option<string>)

  datatype LinkData = LinkData(platform: string, url: Option<string>)

  type Experience = Row<ExperienceData>
  type SocialLink = Row<LinkData>

  /** One element of `workExperiences` in a request body. */
  datatype ExperienceInput = ExperienceInput(
    company: Option<string>,
    position: Option<string>,
    startDate: Option<string>,
    endDate: Option<string>,
    description: Option<string>)

  /** One element of `socialLinks` in a request body. */
  datatype LinkInput = LinkInput(platform: Option<string>, url: Option<string>)

  /** A row of the view table. */
  datatype View = View(
    profileId: nat,
    source: string,
    ipAddress: Option<string>,
    userAgent: Option<string>,
    referrer: Option<string>,
    timestamp: int)

  datatype CreateRequest = CreateRequest(
    fullName: Option<string>,
    title: Option<string>,
    phone: Option<string>,
    address: Option<string>,
    email: Option<string>,
    avatarUrl: Option<string>,
    workExperiences: Field<seq<ExperienceInput>>,
    socialLinks: Field<seq<LinkInput>>)

  datatype UpdateRequest = UpdateRequest(
    fullName: Field<string>,
    title: Field<string>,
    phone: Field<string>,
    address: Field<string>,
    avatarUrl: Field<string>,
    workExperiences: Field<seq<ExperienceInput>>,
    socialLinks: Field<seq<LinkInput>>)

  /** A profile with its children, in `displayOrder`. */
  datatype Card = Card(profile: Profile, experiences: seq<Experience>, socialLinks: seq<SocialLink>)

  /** What `createProfile` answers: no owner, email or phone; the address
      is the one the handler computed, and the children come as the
      transaction stored them. */
  datatype CreatedCard = CreatedCard(
    id: nat,
    slug: string,
    profileUrl: string,
    qrCodeUrl: Option<string>,
    fullName: string,
    title: Option<string>,
    address: Option<string>,
    avatarUrl: Option<string>,
    experiences: seq<Experience>,
    socialLinks: seq<SocialLink>,
    isPublished: bool)

  /** What `getProfileById` answers: every column but the owner, and the
      children without the profile they belong to. */
  datatype OwnerCard = OwnerCard(
    id: nat,
    slug: string,
    fullName: string,
    title: Option<string>,
    email: string,
    phone: Option<string>,
    address: Option<string>,
    avatarUrl: Option<string>,
    profileUrl: Option<string>,
    qrCodeUrl: Option<string>,
    isPublished: bool,
    experiences: seq<Child<ExperienceData>>,
    socialLinks: seq<Child<LinkData>>)

  /** What the public page shows: no owner, no email, no profile URL. */
  datatype PublicCard = PublicCard(
    id: nat,
    slug: string,
    fullName: string,
    title: Option<string>,
    phone: Option<string>,
    address: Option<string>,
    avatarUrl: Option<string>,
    qrCodeUrl: Option<string>,
    experiences: seq<Experience>,
    socialLinks: seq<SocialLink>)

  datatype ProfileReply =
    | Failure(status: nat, error: string, message: string)
    | Created(created: CreatedCard)
    | Updated(updated: Card)
    | Deleted
    | Regenerated(qrCodeUrl: string, profileUrl: string)
    | Public(publicCard: PublicCard)
    | Owned(owned: OwnerCard)
  {
    function Status(): nat {
      match this
      case Failure(s, _, _) => s
      case Created(_) => 201
      case _ => 200
    }
  }

  const MissingProfileFields := Failure(400, "Missing required fields", "Full name and email are required")
  const NotOwned := Failure(404, "Not found", "Profile not found or unauthorized")
  const NotPublic := Failure(404, "Not found", "Profile not found")
  const CreateFailed := Failure(500, "Internal server error", "Failed to create profile")
  const UpdateFailed := Failure(500, "Internal server error", "Failed to update profile")
  const RegenerateFailed := Failure(500, "Internal server error", "Failed to regenerate QR code")

  /** The address `generateQRCode` returns for a profile's image. */
  function QrCodeUrl(id: nat): string {
    "/uploads/qrcodes/" + NatToString(id) + ".png"
  }

  /** `${process.env.FRONTEND_URL}/${slug}` */
  function PublicUrl(env: Env, slug: string): (r: string)
    ensures |r| == |EnvText(env.frontendUrl)| + 1 + |slug|
    ensures r[|EnvText(env.frontendUrl)|] == '/' && r[|EnvText(env.frontendUrl)| + 1..] == slug
  {
    EnvText(env.frontendUrl) + "/" + slug
  }

  /** `workExperiences.map(exp => ...)` without the numbering: an end date
      that is not given (or empty) is stored as null. */
  function ToExperience(e: ExperienceInput): (r: ExperienceData)
    ensures r.endDate.Some? <==> Truthy(e.endDate)
    ensures r.company == e.company && r.position == e.position && r.startDate == e.startDate
    ensures r.description == e.description
  {
    ExperienceData(e.company, e.position, e.startDate, if Truthy(e.endDate) then e.endDate else None, e.description)
  }

  /** Every link names a platform (`link.platform.toUpperCase()` throws
      otherwise). */
  predicate PlatformsGiven(links: seq<LinkInput>) {
    forall i :: 0 <= i < |links| ==> links[i].platform.Some?
  }

  /** `socialLinks.map(link => ...)` without the numbering. */
  function ToLinks(links: seq<LinkInput>): (r: seq<LinkData>)
    requires PlatformsGiven(links)
    ensures |r| == |links|
    ensures forall i :: 0 <= i < |r| ==> r[i].platform == ToUpper(links[i].platform.value) && r[i].url == links[i].url
  {
    seq(|links|, i requires 0 <= i < |links| => LinkData(ToUpper(links[i].platform.value), links[i].url))
  }

  function ToExperiences(items: seq<ExperienceInput>): (r: seq<ExperienceData>)
    ensures |r| == |items|
    ensures forall i :: 0 <= i < |r| ==> r[i] == ToExperience(items[i])
  {
    seq(|items|, i requires 0 <= i < |items| => ToExperience(items[i]))
  }

  /** The array a request supplies for a child collection; missing and null
      supply nothing. */
  function ItemsOf<T>(f: Field<seq<T>>): seq<T> {
    if f.Given? then f.value else []
  }

  /** The row `createProfile` inserts (before any QR code). */
  function NewProfile(id: nat, owner: nat, slug: string, req: CreateRequest, env: Env): (p: Profile)
    requires Truthy(req.fullName) && Truthy(req.email)
    ensures p.id == id && p.userId == owner && p.slug == slug && p.isPublished
    ensures p.profileUrl == Some(PublicUrl(env, slug)) && p.qrCodeUrl.None?
    ensures p.fullName == req.fullName.value && p.email == req.email.value
  {
    Profile(id, owner, slug, req.fullName.value, req.title, req.phone, req.address, req.email.value,
            req.avatarUrl, None, Some(PublicUrl(env, slug)), true)
  }

  /** One column of `prisma.profile.update`: undefined keeps the value, null
      clears it, a value replaces it. */
  function Patch(v: Option<string>, f: Field<string>): (r: Option<string>)
    ensures f.Undefined? ==> r == v
    ensures f.Null? ==> r.None?
    ensures f.Given? ==> r == Some(f.value)
  {
    match f
    case Undefined => v
    case Null => None
    case Given(x) => Some(x)
  }

  /** The profile row after `updateProfile`'s `update`. Only the five columns
      the request may name change. */
  function ApplyUpdate(p: Profile, req: UpdateRequest): (r: Profile)
    requires !req.fullName.Null?
    ensures r.id == p.id && r.userId == p.userId && r.slug == p.slug && r.email == p.email
    ensures r.qrCodeUrl == p.qrCodeUrl && r.profileUrl == p.profileUrl && r.isPublished == p.isPublished
    ensures r.fullName == (if req.fullName.Given? then req.fullName.value else p.fullName)
    ensures r.title == Patch(p.title, req.title) && r.phone == Patch(p.phone, req.phone)
    ensures r.address == Patch(p.address, req.address) && r.avatarUrl == Patch(p.avatarUrl, req.avatarUrl)
  {
    p.(fullName := if req.fullName.Given? then req.fullName.value else p.fullName,
       title := Patch(p.title, req.title),
       phone := Patch(p.phone, req.phone),
       address := Patch(p.address, req.address),
       avatarUrl := Patch(p.avatarUrl, req.avatarUrl))
  }

  /** The update throws inside its transaction: a null `fullName` (a
      required column), or a null child array (`null.length`), or a link
      without a platform. */
  function UpdateThrows(req: UpdateRequest): (r: bool)
    ensures r <==> req.fullName.Null? || req.workExperiences.Null? || req.socialLinks.Null? ||
                   (req.socialLinks.Given? && exists i :: 0 <= i < |req.socialLinks.value| && req.socialLinks.value[i].platform.None?)
    ensures req.fullName.Undefined? && req.workExperiences.Undefined? && req.socialLinks.Undefined? ==> !r
  {
    || req.fullName.Null?
    || req.workExperiences.Null?
    || req.socialLinks.Null?
    || (req.socialLinks.Given? && !PlatformsGiven(req.socialLinks.value))
  }

  /** `profile.profileUrl || `${FRONTEND_URL}/${profile.slug}`` */
  function CurrentUrl(p: Profile, env: Env): (r: string)
    ensures Truthy(p.profileUrl) ==> r == p.profileUrl.value
    ensures !Truthy(p.profileUrl) ==> r == PublicUrl(env, p.slug)
  {
    if Truthy(p.profileUrl) then p.profileUrl.value else PublicUrl(env, p.slug)
  }

  /** `findFirst({ where: { id, userId } })` */
  function FindOwned(profiles: seq<Profile>, id: nat, caller: nat): (r: Option<nat>)
    ensures r.Some? ==> r.value < |profiles| && profiles[r.value].id == id && profiles[r.value].userId == caller
    ensures r.None? <==> forall i :: 0 <= i < |profiles| ==> !(profiles[i].id == id && profiles[i].userId == caller)
  {
    FindFirst(profiles, (p: Profile) => p.id == id && p.userId == caller)
  }

  /** `findUnique({ where: { slug, isPublished: true } })` */
  function FindPublished(profiles: seq<Profile>, slug: string): (r: Option<nat>)
    ensures r.Some? ==> r.value < |profiles| && profiles[r.value].slug == slug && profiles[r.value].isPublished
    ensures r.None? <==> forall i :: 0 <= i < |profiles| ==> !(profiles[i].slug == slug && profiles[i].isPublished)
  {
    FindFirst(profiles, (p: Profile) => p.slug == slug && p.isPublished)
  }

  /** `findUnique({ where: { id, isPublished: true } })` */
  function FindPublishedId(profiles: seq<Profile>, id: nat): (r: Option<nat>)
    ensures r.Some? ==> r.value < |profiles| && profiles[r.value].id == id && profiles[r.value].isPublished
    ensures r.None? <==> forall i :: 0 <= i < |profiles| ==> !(profiles[i].id == id && profiles[i].isPublished)
  {
    FindFirst(profiles, (p: Profile) => p.id == id && p.isPublished)
  }

  function ViewOf(pid: nat): View -> bool {
    (v: View) => v.profileId == pid
  }

  function ViewNotOf(pid: nat): View -> bool {
    (v: View) => v.profileId != pid
  }

  /** `profileView.findMany({ where: { profileId } })`, in table order: every
      view of the profile and no other. */
  function ViewsOf(views: seq<View>, pid: nat): (r: seq<View>)
    ensures forall i :: 0 <= i < |r| ==> r[i].profileId == pid
    ensures forall v :: v in r ==> v in views && v.profileId == pid
    ensures forall v :: v in views && v.profileId == pid ==> v in r
  {
    Filter(views, ViewOf(pid))
  }

  /** The view table after the profile's views are cascade-deleted. */
  function ViewsWithout(views: seq<View>, pid: nat): (r: seq<View>)
    ensures forall i :: 0 <= i < |r| ==> r[i].profileId != pid
  {
    Filter(views, ViewNotOf(pid))
  }

  /** The cascade removes every view of the profile and keeps every other
      profile's views, in order. */
  lemma ViewsWithoutEffect(views: seq<View>, pid: nat)
    ensures ViewsOf(ViewsWithout(views, pid), pid) == []
    ensures forall q :: q != pid ==> ViewsOf(ViewsWithout(views, pid), q) == ViewsOf(views, q)
  {
    FilterNone(ViewsWithout(views, pid), ViewOf(pid));
    forall q | q != pid
      ensures ViewsOf(ViewsWithout(views, pid), q) == ViewsOf(views, q)
    {
      FilterFilter(views, ViewNotOf(pid), ViewOf(q));
    }
  }

  function RemoveAt<T>(s: seq<T>, i: nat): (r: seq<T>)
    requires i < |s|
    ensures |r| == |s| - 1
    ensures forall a :: 0 <= a < |r| ==> r[a] == s[if a < i then a else a + 1]
  {
    s[..i] + s[i + 1..]
  }

  /** The slugs of a list of profiles. */
  function SlugsOf(ps: seq<Profile>): (r: set<string>)
    ensures forall i :: 0 <= i < |ps| ==> ps[i].slug in r
    ensures forall s :: s in r ==> exists i :: 0 <= i < |ps| && ps[i].slug == s
  {
    set i | 0 <= i < |ps| :: ps[i].slug
  }

  /** Appending a profile adds its slug and nothing else. */
  lemma SlugsOfAppend(ps: seq<Profile>, p: Profile)
    ensures SlugsOf(ps + [p]) == SlugsOf(ps) + {p.slug}
  {
    var qs := ps + [p];
    forall t | t in SlugsOf(qs) ensures t in SlugsOf(ps) + {p.slug} {
      var i :| 0 <= i < |qs| && qs[i].slug == t;
      if i < |ps| {
        assert qs[i] == ps[i];
      }
    }
    forall i | 0 <= i < |ps| ensures ps[i].slug in SlugsOf(qs) {
      assert qs[i] == ps[i];
    }
    assert qs[|ps|] == p;
  }

  /** Ids below `nextId`, and no two profiles sharing an id or a slug. */
  ghost predicate Keyed(ps: seq<Profile>, nextId: nat) {
    && (forall i :: 0 <= i < |ps| ==> ps[i].id < nextId)
    && (forall i, j :: 0 <= i < j < |ps| ==> ps[i].id != ps[j].id && ps[i].slug != ps[j].slug)
  }

  /** Removing a profile keeps the others keyed. */
  lemma RemoveAtKeyed(ps: seq<Profile>, k: nat, nextId: nat)
    requires k < |ps| && Keyed(ps, nextId)
    ensures Keyed(RemoveAt(ps, k), nextId)
    ensures forall j :: 0 <= j < |ps| - 1 ==> RemoveAt(ps, k)[j].id != ps[k].id
  {
    var r := RemoveAt(ps, k);
    forall j | 0 <= j < |r| ensures r[j].id != ps[k].id {
      var j' := if j < k then j else j + 1;
      assert r[j] == ps[j'] && j' != k;
      if j' < k {
        assert ps[j'].id != ps[k].id;
      } else {
        assert ps[k].id != ps[j'].id;
      }
    }
    forall i, j | 0 <= i < j < |r| ensures r[i].id != r[j].id && r[i].slug != r[j].slug {
      var i', j' := if i < k then i else i + 1, if j < k then j else j + 1;
      assert r[i] == ps[i'] && r[j] == ps[j'] && i' < j';
    }
  }

  /** The database and the QR image directory. */
  class ProfileStore {
    var profiles: seq<Profile>
    var experiences: seq<Experience>
    var socialLinks: seq<SocialLink>
    var views: seq<View>
    var qrFiles: set<nat>
    var nextId: nat

    /** Ids and slugs are unique; no row names an id not yet handed out; each
        profile's children are numbered from 0 in table order. */
    ghost predicate Valid()
      reads this
    {
      && Keyed(profiles, nextId)
      && (forall r :: r in experiences ==> r.profileId < nextId)
      && (forall r :: r in socialLinks ==> r.profileId < nextId)
      && (forall v :: v in views ==> v.profileId < nextId)
      && AllNumbered(experiences) && AllNumbered(socialLinks)
    }

    /** The slugs in use. */
    function Slugs(): set<string>
      reads this
    {
      SlugsOf(profiles)
    }

    constructor ()
      ensures Valid()
      ensures profiles == [] && experiences == [] && socialLinks == [] && views == [] && qrFiles == {}
    {
      profiles, experiences, socialLinks, views, qrFiles, nextId := [], [], [], [], {}, 0;
    }

    /** The creating transaction: the profile row, then its children. */
    method Insert(p: Profile, exps: seq<ExperienceData>, links: seq<LinkData>)
      requires Valid() && p.id == nextId && p.slug !in Slugs()
      modifies this
      ensures Valid()
      ensures profiles == old(profiles) + [p] && nextId == old(nextId) + 1
      ensures experiences == old(experiences) + Numbered(p.id, exps)
      ensures socialLinks == old(socialLinks) + Numbered(p.id, links)
      ensures views == old(views) && qrFiles == old(qrFiles)
    {
      AllNumberedKept(experiences, p.id, exps);
      AllNumberedKept(socialLinks, p.id, links);
      profiles := profiles + [p];
      experiences := experiences + Numbered(p.id, exps);
      socialLinks := socialLinks + Numbered(p.id, links);
      nextId := nextId + 1;
    }

    /** `prisma.profile.update` of the row at `i`, keeping its id and slug. */
    method SetRow(i: nat, p: Profile)
      requires Valid() && i < |profiles| && p.id == profiles[i].id && p.slug == profiles[i].slug
      modifies this
      ensures Valid()
      ensures profiles == old(profiles)[i := p]
      ensures experiences == old(experiences) && socialLinks == old(socialLinks)
      ensures views == old(views) && qrFiles == old(qrFiles) && nextId == old(nextId)
    {
      profiles := profiles[i := p];
    }

    /** `workExperience.deleteMany` then `createMany` for one profile. */
    method ReplaceExperiences(pid: nat, items: seq<ExperienceData>)
      requires Valid() && pid < nextId
      modifies this
      ensures Valid()
      ensures experiences == Replace(old(experiences), pid, items)
      ensures profiles == old(profiles) && socialLinks == old(socialLinks)
      ensures views == old(views) && qrFiles == old(qrFiles) && nextId == old(nextId)
    {
      AllNumberedKept(experiences, pid, items);
      experiences := Replace(experiences, pid, items);
    }

    /** `socialLink.deleteMany` then `createMany` for one profile. */
    method ReplaceSocialLinks(pid: nat, items: seq<LinkData>)
      requires Valid() && pid < nextId
      modifies this
      ensures Valid()
      ensures socialLinks == Replace(old(socialLinks), pid, items)
      ensures profiles == old(profiles) && experiences == old(experiences)
      ensures views == old(views) && qrFiles == old(qrFiles) && nextId == old(nextId)
    {
      AllNumberedKept(socialLinks, pid, items);
      socialLinks := Replace(socialLinks, pid, items);
    }

    /** `prisma.profile.delete` of the row at `i`, with the cascade to its
        children and views. */
    method Delete(i: nat)
      requires Valid() && i < |profiles|
      modifies this
      ensures Valid()
      ensures profiles == RemoveAt(old(profiles), i)
      ensures experiences == Without(old(experiences), old(profiles)[i].id)
      ensures socialLinks == Without(old(socialLinks), old(profiles)[i].id)
      ensures views == ViewsWithout(old(views), old(profiles)[i].id)
      ensures qrFiles == old(qrFiles) && nextId == old(nextId)
    {
      var pid := profiles[i].id;
      RemoveAtKeyed(profiles, i, nextId);
      AllNumberedKept(experiences, pid, []);
      AllNumberedKept(socialLinks, pid, []);
      profiles := RemoveAt(profiles, i);
      experiences := Without(experiences, pid);
      socialLinks := Without(socialLinks, pid);
      views := ViewsWithout(views, pid);
    }

    /** A QR image written for the last profile and its address stored on
        the row. */
    method AttachQr()
      requires Valid() && profiles != []
      modifies this
      ensures Valid()
      ensures var last := old(profiles)[|old(profiles)| - 1];
              && profiles == old(profiles)[..|old(profiles)| - 1] + [last.(qrCodeUrl := Some(QrCodeUrl(last.id)))]
              && qrFiles == old(qrFiles) + {last.id}
      ensures experiences == old(experiences) && socialLinks == old(socialLinks)
      ensures views == old(views) && nextId == old(nextId)
    {
      var last := profiles[|profiles| - 1];
      qrFiles := qrFiles + {last.id};
      profiles := profiles[..|profiles| - 1] + [last.(qrCodeUrl := Some(QrCodeUrl(last.id)))];
    }

    /** `profileView.create` */
    method AppendView(v: View)
      requires Valid() && v.profileId < nextId
      modifies this
      ensures Valid()
      ensures views == old(views) + [v]
      ensures profiles == old(profiles) && experiences == old(experiences) && socialLinks == old(socialLinks)
      ensures qrFiles == old(qrFiles) && nextId == old(nextId)
    {
      views := views + [v];
    }
  }

  /** The transaction of `createProfile` (the profile row, then its
      experiences and links), followed by the QR update when the image was
      written. */
  method InsertWithQr(store: ProfileStore, row: Profile, exps: seq<ExperienceData>, links: seq<LinkData>, qrOk: bool)
    returns (p: Profile)
    requires store.Valid()
    requires row.id == store.nextId && row.slug !in store.Slugs()
    modifies store
    ensures store.Valid()
    ensures p == row.(qrCodeUrl := if qrOk then Some(QrCodeUrl(row.id)) else row.qrCodeUrl)
    ensures store.profiles == old(store.profiles) + [p]
    ensures store.experiences == old(store.experiences) + Numbered(p.id, exps)
    ensures store.socialLinks == old(store.socialLinks) + Numbered(p.id, links)
    ensures ChildrenOf(store.experiences, p.id) == Numbered(p.id, exps)
    ensures ChildrenOf(store.socialLinks, p.id) == Numbered(p.id, links)
    ensures store.views == old(store.views)
    ensures store.qrFiles == (if qrOk then old(store.qrFiles) + {p.id} else old(store.qrFiles))
  {
    ghost var oldExps, oldLinks := store.experiences, store.socialLinks;
    assert forall i :: 0 <= i < |oldExps| ==> oldExps[i] in oldExps;
    assert forall i :: 0 <= i < |oldLinks| ==> oldLinks[i] in oldLinks;
    store.Insert(row, exps, links);
    AppendEffect(oldExps, row.id, exps);
    AppendEffect(oldLinks, row.id, links);
    if qrOk {
      store.AttachQr();
    }
    p := store.profiles[|store.profiles| - 1];
  }

  method CreateProfile(store: ProfileStore, caller: nat, req: CreateRequest, env: Env, qrOk: bool)
    returns (reply: ProfileReply)
    requires store.Valid()
    modifies store
    ensures store.Valid()
    ensures !Truthy(req.fullName) || !Truthy(req.email) ==> reply == MissingProfileFields && unchanged(store)
    ensures Truthy(req.fullName) && Truthy(req.email) && !PlatformsGiven(ItemsOf(req.socialLinks)) ==>
              reply == CreateFailed && unchanged(store)
    ensures Truthy(req.fullName) && Truthy(req.email) && PlatformsGiven(ItemsOf(req.socialLinks)) ==>
              && |store.profiles| == |old(store.profiles)| + 1
              && var p := store.profiles[|old(store.profiles)|];
              && IsAllocatedSlug(req.fullName.value, old(store.Slugs()), p.slug)
              && store.profiles == old(store.profiles) + [p]
              && p == NewProfile(old(store.nextId), caller, p.slug, req, env).(
                        qrCodeUrl := if qrOk then Some(QrCodeUrl(p.id)) else None)
              && store.experiences == old(store.experiences) + Numbered(p.id, ToExperiences(ItemsOf(req.workExperiences)))
              && store.socialLinks == old(store.socialLinks) + Numbered(p.id, ToLinks(ItemsOf(req.socialLinks)))
              && ChildrenOf(store.experiences, p.id) == Numbered(p.id, ToExperiences(ItemsOf(req.workExperiences)))
              && ChildrenOf(store.socialLinks, p.id) == Numbered(p.id, ToLinks(ItemsOf(req.socialLinks)))
              && store.views == old(store.views)
              && store.qrFiles == (if qrOk then old(store.qrFiles) + {p.id} else old(store.qrFiles))
              && reply == Created(CreatedCard(p.id, p.slug, PublicUrl(env, p.slug), p.qrCodeUrl, p.fullName, p.title,
                                              p.address, p.avatarUrl, ChildrenOf(store.experiences, p.id),
                                              ChildrenOf(store.socialLinks, p.id), p.isPublished))
  {
    if !Truthy(req.fullName) || !Truthy(req.email) {
      return MissingProfileFields;
    }
    var slug := GenerateSlug(req.fullName.value, store.Slugs());
    if !PlatformsGiven(ItemsOf(req.socialLinks)) {
      return CreateFailed;
    }
    var exps := ToExperiences(ItemsOf(req.workExperiences));
    var links := ToLinks(ItemsOf(req.socialLinks));
    var profile := InsertWithQr(store, NewProfile(store.nextId, caller, slug, req, env), exps, links, qrOk);
    var profileUrl := PublicUrl(env, slug);
    reply := Created(CreatedCard(profile.id, profile.slug, profileUrl, profile.qrCodeUrl, profile.fullName, profile.title,
                                 profile.address, profile.avatarUrl, ChildrenOf(store.experiences, profile.id),
                                 ChildrenOf(store.socialLinks, profile.id), profile.isPublished));
  }

  method UpdateProfile(store: ProfileStore, caller: nat, profileId: nat, req: UpdateRequest)
    returns (reply: ProfileReply)
    requires store.Valid()
    modifies store
    ensures store.Valid()
    ensures FindOwned(old(store.profiles), profileId, caller).None? ==> reply == NotOwned && unchanged(store)
    ensures FindOwned(old(store.profiles), profileId, caller).Some? && UpdateThrows(req) ==>
              reply == UpdateFailed && unchanged(store)
    ensures FindOwned(old(store.profiles), profileId, caller).Some? && !UpdateThrows(req) ==>
              var i := FindOwned(old(store.profiles), profileId, caller).value;
              && store.profiles == old(store.profiles)[i := ApplyUpdate(old(store.profiles)[i], req)]
              && store.experiences == (if req.workExperiences.Given?
                                       then Replace(old(store.experiences), profileId, ToExperiences(req.workExperiences.value))
                                       else old(store.experiences))
              && store.socialLinks == (if req.socialLinks.Given?
                                       then Replace(old(store.socialLinks), profileId, ToLinks(req.socialLinks.value))
                                       else old(store.socialLinks))
              && store.views == old(store.views) && store.qrFiles == old(store.qrFiles)
              && reply == Updated(Card(store.profiles[i], ChildrenOf(store.experiences, profileId),
                                       ChildrenOf(store.socialLinks, profileId)))
    ensures FindOwned(old(store.profiles), profileId, caller).Some? && !UpdateThrows(req) ==>
              && ChildrenOf(store.experiences, profileId)
                   == (if req.workExperiences.Given? then Numbered(profileId, ToExperiences(req.workExperiences.value))
                       else ChildrenOf(old(store.experiences), profileId))
              && ChildrenOf(store.socialLinks, profileId)
                   == (if req.socialLinks.Given? then Numbered(profileId, ToLinks(req.socialLinks.value))
                       else ChildrenOf(old(store.socialLinks), profileId))
    ensures forall q :: q != profileId ==>
              ChildrenOf(store.experiences, q) == ChildrenOf(old(store.experiences), q)
              && ChildrenOf(store.socialLinks, q) == ChildrenOf(old(store.socialLinks), q)
  {
    var found := FindOwned(store.profiles, profileId, caller);
    if found.None? {
      return NotOwned;
    }
    if UpdateThrows(req) {
      return UpdateFailed;
    }
    var i := found.value;
    store.SetRow(i, ApplyUpdate(store.profiles[i], req));
    if req.workExperiences.Given? {
      ReplaceEffect(store.experiences, profileId, ToExperiences(req.workExperiences.value));
      store.ReplaceExperiences(profileId, ToExperiences(req.workExperiences.value));
    }
    if req.socialLinks.Given? {
      ReplaceEffect(store.socialLinks, profileId, ToLinks(req.socialLinks.value));
      store.ReplaceSocialLinks(profileId, ToLinks(req.socialLinks.value));
    }
    reply := Updated(Card(store.profiles[i], ChildrenOf(store.experiences, profileId), ChildrenOf(store.socialLinks, profileId)));
  }

  method DeleteProfile(store: ProfileStore, caller: nat, profileId: nat) returns (reply: ProfileReply)
    requires store.Valid()
    modifies store
    ensures store.Valid()
    ensures FindOwned(old(store.profiles), profileId, caller).None? ==> reply == NotOwned && unchanged(store)
    ensures FindOwned(old(store.profiles), profileId, caller).Some? ==>
              var i := FindOwned(old(store.profiles), profileId, caller).value;
              && reply == Deleted
              && store.profiles == RemoveAt(old(store.profiles), i)
              && store.experiences == Without(old(store.experiences), profileId)
              && store.socialLinks == Without(old(store.socialLinks), profileId)
              && store.views == ViewsWithout(old(store.views), profileId)
              && store.qrFiles == old(store.qrFiles) - {profileId}
    ensures FindOwned(old(store.profiles), profileId, caller).Some? ==>
              && (forall j :: 0 <= j < |store.profiles| ==> store.profiles[j].id != profileId)
              && ChildrenOf(store.experiences, profileId) == [] && ChildrenOf(store.socialLinks, profileId) == []
              && ViewsOf(store.views, profileId) == []
    ensures forall q :: q != profileId ==>
              ChildrenOf(store.experiences, q) == ChildrenOf(old(store.experiences), q)
              && ChildrenOf(store.socialLinks, q) == ChildrenOf(old(store.socialLinks), q)
              && ViewsOf(store.views, q) == ViewsOf(old(store.views), q)
  {
    var found := FindOwned(store.profiles, profileId, caller);
    if found.None? {
      return NotOwned;
    }
    RemoveAtKeyed(store.profiles, found.value, store.nextId);
    WithoutEffect(store.experiences, profileId);
    WithoutEffect(store.socialLinks, profileId);
    ViewsWithoutEffect(store.views, profileId);
    store.Delete(found.value);
    store.qrFiles := store.qrFiles - {profileId};
    reply := Deleted;
  }

  method RegenerateQRCode(store: ProfileStore, caller: nat, profileId: nat, env: Env, qrOk: bool)
    returns (reply: ProfileReply)
    requires store.Valid()
    modifies store
    ensures store.Valid()
    ensures FindOwned(old(store.profiles), profileId, caller).None? ==> reply == NotOwned && unchanged(store)
    ensures FindOwned(old(store.profiles), profileId, caller).Some? && !qrOk ==>
              && reply == RegenerateFailed
              && store.profiles == old(store.profiles)
              && store.qrFiles == old(store.qrFiles) - {profileId}
    ensures FindOwned(old(store.profiles), profileId, caller).Some? && qrOk ==>
              var i := FindOwned(old(store.profiles), profileId, caller).value;
              var url := CurrentUrl(old(store.profiles)[i], env);
              && reply == Regenerated(QrCodeUrl(profileId), url)
              && store.profiles == old(store.profiles)[i := old(store.profiles)[i].(
                                      qrCodeUrl := Some(QrCodeUrl(profileId)), profileUrl := Some(url))]
              && store.qrFiles == old(store.qrFiles) + {profileId}
    ensures store.experiences == old(store.experiences) && store.socialLinks == old(store.socialLinks)
    ensures store.views == old(store.views)
  {
    var found := FindOwned(store.profiles, profileId, caller);
    if found.None? {
      return NotOwned;
    }
    var profile := store.profiles[found.value];
    store.qrFiles := store.qrFiles - {profileId};
    var profileUrl := CurrentUrl(profile, env);
    if !qrOk {
      return RegenerateFailed;
    }
    store.qrFiles := store.qrFiles + {profileId};
    store.SetRow(found.value, profile.(qrCodeUrl := Some(QrCodeUrl(profileId)), profileUrl := Some(profileUrl)));
    reply := Regenerated(QrCodeUrl(profileId), profileUrl);
  }

  /** The public page: a published profile by slug, without its owner, email
      or profile URL. */
  method GetProfileBySlug(store: ProfileStore, slug: string) returns (reply: ProfileReply)
    ensures FindPublished(store.profiles, slug).None? <==> reply == NotPublic
    ensures reply.Public? ==>
              exists i :: 0 <= i < |store.profiles| && store.profiles[i].slug == slug && store.profiles[i].isPublished
                && reply.publicCard.id == store.profiles[i].id
    ensures FindPublished(store.profiles, slug).Some? ==>
              var p := store.profiles[FindPublished(store.profiles, slug).value];
              reply == Public(PublicCard(p.id, p.slug, p.fullName, p.title, p.phone, p.address, p.avatarUrl, p.qrCodeUrl,
                                         ChildrenOf(store.experiences, p.id), ChildrenOf(store.socialLinks, p.id)))
  {
    var found := FindPublished(store.profiles, slug);
    if found.None? {
      return NotPublic;
    }
    var p := store.profiles[found.value];
    reply := Public(PublicCard(p.id, p.slug, p.fullName, p.title, p.phone, p.address, p.avatarUrl, p.qrCodeUrl,
                               ChildrenOf(store.experiences, p.id), ChildrenOf(store.socialLinks, p.id)));
  }

  /** The editing view: the caller's own profile, published or not. */
  method GetProfileById(store: ProfileStore, caller: nat, profileId: nat) returns (reply: ProfileReply)
    ensures FindOwned(store.profiles, profileId, caller).None? <==> reply == NotOwned
    ensures reply.Owned? ==>
              && reply.owned.id == profileId
              && exists i :: 0 <= i < |store.profiles| && store.profiles[i].id == profileId && store.profiles[i].userId == caller
    ensures FindOwned(store.profiles, profileId, caller).Some? ==>
              var p := store.profiles[FindOwned(store.profiles, profileId, caller).value];
              reply == Owned(OwnerCard(p.id, p.slug, p.fullName, p.title, p.email, p.phone, p.address, p.avatarUrl,
                                       p.profileUrl, p.qrCodeUrl, p.isPublished,
                                       Unowned(ChildrenOf(store.experiences, profileId)),
                                       Unowned(ChildrenOf(store.socialLinks, profileId))))
  {
    var found := FindOwned(store.profiles, profileId, caller);
    if found.None? {
      return NotOwned;
    }
    var p := store.profiles[found.value];
    reply := Owned(OwnerCard(p.id, p.slug, p.fullName, p.title, p.email, p.phone, p.address, p.avatarUrl,
                             p.profileUrl, p.qrCodeUrl, p.isPublished,
                             Unowned(ChildrenOf(store.experiences, profileId)),
                             Unowned(ChildrenOf(store.socialLinks, profileId))));
  }

  /** A successful create takes the allocated slug: afterwards the slugs in
      use are the earlier ones plus that slug. */
  method CreateTakesSlug(store: ProfileStore, owner: nat, req: CreateRequest, env: Env, qrOk: bool)
    returns (slug: string)
    requires store.Valid()
    requires Truthy(req.fullName) && Truthy(req.email) && PlatformsGiven(ItemsOf(req.socialLinks))
    modifies store
    ensures store.Valid()
    ensures IsAllocatedSlug(req.fullName.value, old(store.Slugs()), slug)
    ensures store.Slugs() == old(store.Slugs()) + {slug}
  {
    ghost var before := store.profiles;
    var reply := CreateProfile(store, owner, req, env, qrOk);
    ghost var p := store.profiles[|before|];
    slug := reply.created.slug;
    SlugsOfAppend(before, p);
  }

  /** Two profiles created under the same name, starting from an empty
      store: the first gets the base slug and the second the base with `-1`
      (for "John Doe", `john-doe` and then `john-doe-1`). */
  method SameNameScenario(env: Env, owner: nat, req: CreateRequest) returns (first: string, second: string)
    requires Truthy(req.fullName) && Truthy(req.email) && PlatformsGiven(ItemsOf(req.socialLinks))
    ensures first == BaseSlug(req.fullName.value)
    ensures second == Candidate(BaseSlug(req.fullName.value), 1)
  {
    ghost var b := BaseSlug(req.fullName.value);
    SameNameTwice(b);
    var store := new ProfileStore();
    assert store.Slugs() == {};
    first := CreateTakesSlug(store, owner, req, env, true);
    FirstFreeUnique(b, {}, first, b);
    assert store.Slugs() == {b};
    second := CreateTakesSlug(store, owner, req, env, false);
    FirstFreeUnique(b, {b}, second, Candidate(b, 1));
  }

  /** Once its owner deletes a profile, the public page at its slug answers
      404. */
  method DeletedPageIsGone(store: ProfileStore, caller: nat, profileId: nat) returns (page: ProfileReply)
    requires store.Valid()
    requires FindOwned(store.profiles, profileId, caller).Some?
    modifies store
    ensures page == NotPublic
  {
    var slug := store.profiles[FindOwned(store.profiles, profileId, caller).value].slug;
    var deleted := DeleteProfile(store, caller, profileId);
    page := GetProfileBySlug(store, slug);
  }
}
