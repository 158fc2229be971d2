/** Importing a tag: looking it up, the guards, assigning it to a user as the default tag, saving it. */
module ImportHelper {
  import opened Prelude
  import opened Text

  /** A flag read from an import file: missing, a boolean, or a text. */
  datatype Flag = Absent | Flag(b: bool) | Text(s: string)

  predicate IsTruthy(flag: Flag) {
    match flag
    case Absent => false
    case Flag(b) => b
    case Text(s) => s != ""
  }

  predicate ConvertToBoolean(flag: Flag) {
    match flag
    case Absent => false
    case Flag(b) => b
    case Text(s) => s == "true"
  }

  datatype ImportedTag = ImportedTag(
    id: string, visualID: Option<string>, description: string, fromEMSP: Flag, autoActivate: bool,
    email: string, name: string, firstName: string)

  predicate CarriesUser(importedTag: ImportedTag) {
    importedTag.email != "" && importedTag.name != "" && importedTag.firstName != ""
  }

  /** A document of the tags collection. */
  datatype StoredTag = StoredTag(
    visualID: string, userID: Option<int>, isDefault: bool, active: bool, issuer: bool,
    description: string, fromEMSP: bool, tokenIssuer: Option<string>)

  type Tags = map<string, StoredTag>

  /** Each user has at most one default tag. */
  predicate OneDefault(tags: Tags) {
    forall a, b ::
      && a in tags && b in tags && tags[a].isDefault && tags[b].isDefault
      && tags[a].userID.Some? && tags[a].userID == tags[b].userID
      ==> a == b
  }

  function Cleared(tags: Tags, user: int): Tags {
    map id | id in tags :: if tags[id].userID == Some(user) then tags[id].(isDefault := false) else tags[id]
  }

  /** `tag` is a default tag of the user, and the only one. */
  predicate OnlyDefault(tags: Tags, user: int, tag: string) {
    && tag in tags && tags[tag].userID == Some(user) && tags[tag].isDefault
    && forall id <- tags :: id != tag && tags[id].userID == Some(user) ==> !tags[id].isDefault
  }

  lemma AssignKeepsOneDefault(tags: Tags, user: int, id: string, doc: StoredTag)
    requires doc.userID == Some(user) && doc.isDefault
    ensures OneDefault(tags) ==> OneDefault(Cleared(tags, user)) && OneDefault(Cleared(tags, user)[id := doc])
    ensures OnlyDefault(Cleared(tags, user)[id := doc], user, id)
    ensures OthersKept(tags, Cleared(tags, user)[id := doc], id, Some(user))
  {
  }

  lemma UnassignedKeepsOneDefault(tags: Tags, id: string, doc: StoredTag)
    requires doc.userID == None
    ensures OneDefault(tags) ==> OneDefault(tags[id := doc])
    ensures OthersKept(tags, tags[id := doc], id, None)
  {
  }

  /** The tag object a call works on: read from the store or newly made, then changed and saved. */
  class Tag {
    const id: string
    var visualID: Option<string>
    var userID: Option<int>
    var isDefault: bool
    var active: bool
    var issuer: bool
    var description: string
    var fromEMSP: bool
    var tokenIssuer: Option<string>
    var transactionsCount: nat

    constructor Read(id: string, doc: StoredTag, transactionsCount: nat)
      ensures this.id == id && this.transactionsCount == transactionsCount
      ensures forall generated :: Document(generated) == doc
      ensures visualID.Some?
    {
      this.id, visualID, userID, isDefault := id, Some(doc.visualID), doc.userID, doc.isDefault;
      active, issuer, description := doc.active, doc.issuer, doc.description;
      fromEMSP, tokenIssuer, this.transactionsCount := doc.fromEMSP, doc.tokenIssuer, transactionsCount;
    }

    /** `createTag` and `createLocalTag` end with the same new tag. */
    constructor Create(importedTag: ImportedTag)
      ensures id == importedTag.id && userID == None
      ensures forall generated :: Document(generated) == NewDocument(importedTag, generated)
    {
      id, visualID, userID, isDefault := importedTag.id, importedTag.visualID, None, false;
      active, issuer, description := importedTag.autoActivate, true, importedTag.description;
      fromEMSP, tokenIssuer, transactionsCount := ConvertToBoolean(importedTag.fromEMSP), None, 0;
    }

    /** What saving writes; a tag without a visual ID gets a generated one. */
    function Document(generated: string): StoredTag
      reads this
    {
      StoredTag(if visualID.Some? then visualID.value else generated,
                userID, isDefault, active, issuer, description, fromEMSP, tokenIssuer)
    }
  }

  function NewDocument(importedTag: ImportedTag, generated: string): StoredTag {
    StoredTag(if importedTag.visualID.Some? then importedTag.visualID.value else generated,
              None, false, importedTag.autoActivate, true, importedTag.description,
              ConvertToBoolean(importedTag.fromEMSP), None)
  }

  /** Why an existing tag is not taken over. */
  function Objection(id: string, doc: StoredTag, transactionsCount: nat, importedTag: ImportedTag): Option<string> {
    if doc.userID.Some? then Some("Tag is already assigned to a user")
    else if doc.active then Some("Tag is already active")
    else if transactionsCount > 0 then Some("Tag is already used in transaction(s)")
    else if id != importedTag.id then Some("Tag Visual ID is already assigned to another tag")
    else None
  }

  /** The tag with the imported id, or else the one that alone has the imported visual ID. */
  predicate IsFound(tags: Tags, importedTag: ImportedTag, id: string) {
    && id in tags
    && (id == importedTag.id
        || (importedTag.id !in tags && HasVisualID(tags, importedTag, id)
            && forall other <- tags :: HasVisualID(tags, importedTag, other) ==> other == id))
  }

  predicate HasVisualID(tags: Tags, importedTag: ImportedTag, id: string)
    requires id in tags
  {
    importedTag.visualID.Some? && importedTag.visualID.value != "" && tags[id].visualID == importedTag.visualID.value
  }

  lemma FoundOnlyOne(tags: Tags, importedTag: ImportedTag, a: string, b: string)
    requires IsFound(tags, importedTag, a) && IsFound(tags, importedTag, b)
    ensures a == b
  {
  }

  /** What the settings say about tags of an eMSP: the service is active, and its credentials. */
  datatype DoubleAccess = DoubleAccess(active: bool, emspCredentials: string)

  function LocalTagObjection(tags: Tags, importedTag: ImportedTag, access: DoubleAccess): Option<string> {
    var remote := Split(importedTag.id, '*')[0];
    if remote !in tags then Some("eMsp Tag not found")
    else if !access.active then Some("Tenant doesn't have access to add eMSP Tag.")
    else if tags[remote].tokenIssuer != Some(access.emspCredentials) then Some("Tag from eMsp is not authorized.")
    else None
  }

  class ImportHelper {
    var tags: Tags
    var users: map<string, int>  // by email
    const transactions: string -> nat
    const access: DoubleAccess

    method FindTag(importedTag: ImportedTag) returns (tag: Tag?)
      ensures importedTag.id in tags ==> tag != null && tag.id == importedTag.id
      ensures importedTag.id !in tags && tag != null ==>
                && tag.id in tags && importedTag.visualID == Some(tags[tag.id].visualID)
                && forall other <- tags :: tags[other].visualID == tags[tag.id].visualID ==> other == tag.id
      ensures tag == null ==> forall id :: !IsFound(tags, importedTag, id)
      ensures tag != null ==>
                && fresh(tag) && IsFound(tags, importedTag, tag.id) && tag.transactionsCount == transactions(tag.id)
                && forall generated :: tag.Document(generated) == tags[tag.id]
    {
      if importedTag.id in tags {
        tag := new Tag.Read(importedTag.id, tags[importedTag.id], transactions(importedTag.id));
        return;
      }
      if id: string :|
        id in tags && HasVisualID(tags, importedTag, id)
        && forall other <- tags :: HasVisualID(tags, importedTag, other) ==> other == id
      {
        tag := new Tag.Read(id, tags[id], transactions(id));
      } else {
        tag := null;
      }
    }

    /** The guards come before the first assignment. */
    method UpdateTag(tag: Tag, importedTag: ImportedTag) returns (r: Result<()>)
      modifies tag
      ensures r.Ok? <==>
                && old(tag.userID) == None && !old(tag.active) && old(tag.transactionsCount) == 0
                && tag.id == importedTag.id
      ensures old(tag.userID).Some? ==> r == Err("Tag is already assigned to a user")
      ensures old(tag.userID).None? && old(tag.active) ==> r == Err("Tag is already active")
      ensures old(tag.userID).None? && !old(tag.active) && old(tag.transactionsCount) > 0 ==>
                r == Err("Tag is already used in transaction(s)")
      ensures r.Err? <==> Objection(tag.id, old(tag.Document("")), old(tag.transactionsCount), importedTag).Some?
      ensures r.Err? ==>
                Some(r.message) == Objection(tag.id, old(tag.Document("")), old(tag.transactionsCount), importedTag)
      ensures r.Ok? ==> tag.id == importedTag.id && tag.userID == None && forall generated ::
                tag.Document(generated) ==
                  NewDocument(importedTag, generated).(
                    isDefault := old(tag.isDefault), issuer := old(tag.issuer), tokenIssuer := old(tag.tokenIssuer),
                    fromEMSP := ConvertToBoolean(importedTag.fromEMSP))
    {
      if tag.userID.Some? {
        return Err("Tag is already assigned to a user");
      }
      if tag.active {
        return Err("Tag is already active");
      }
      if tag.transactionsCount > 0 {
        return Err("Tag is already used in transaction(s)");
      }
      if tag.id != importedTag.id {
        return Err("Tag Visual ID is already assigned to another tag");
      }
      tag.visualID := importedTag.visualID;
      tag.active := importedTag.autoActivate;
      tag.description := importedTag.description;
      tag.fromEMSP := if IsTruthy(importedTag.fromEMSP) then ConvertToBoolean(importedTag.fromEMSP) else false;
      r := Ok(());
    }

    /** Its eMSP branch is never taken: the caller comes here only when the flag is not truthy. */
    method CreateTag(importedTag: ImportedTag) returns (r: Result<Tag>)
      ensures !IsTruthy(importedTag.fromEMSP) ==> r.Ok?
      ensures r.Err? <==>
                && (importedTag.fromEMSP == Flag(true) || importedTag.fromEMSP == Text("true"))
                && (!access.active
                    || (importedTag.id in tags && !tags[importedTag.id].issuer
                        && tags[importedTag.id].tokenIssuer != Some(access.emspCredentials)))
      ensures r.Ok? ==>
                && fresh(r.value) && r.value.id == importedTag.id && r.value.userID == None
                && forall generated :: r.value.Document(generated) == NewDocument(importedTag, generated)
    {
      if ConvertToBoolean(importedTag.fromEMSP) {
        if !access.active {
          return Err("Tenant doesn't have access to add eMSP Tag.");
        }
        if importedTag.id in tags && !tags[importedTag.id].issuer
           && tags[importedTag.id].tokenIssuer != Some(access.emspCredentials) {
          return Err("Tag from eMsp is not authorized.");
        }
      }
      var tag := new Tag.Create(importedTag);
      r := Ok(tag);
    }

    method CreateLocalTag(importedTag: ImportedTag) returns (r: Result<Tag>)
      ensures r.Ok? <==>
                var remote := Split(importedTag.id, '*')[0];
                remote in tags && access.active && tags[remote].tokenIssuer == Some(access.emspCredentials)
      ensures r.Err? <==> LocalTagObjection(tags, importedTag, access).Some?
      ensures r.Err? ==> Some(r.message) == LocalTagObjection(tags, importedTag, access)
      ensures r.Ok? ==>
                && fresh(r.value) && r.value.id == importedTag.id && r.value.userID == None
                && forall generated :: r.value.Document(generated) == NewDocument(importedTag, generated)
    {
      var remote := Split(importedTag.id, '*')[0];
      if remote !in tags {
        return Err("eMsp Tag not found");
      }
      if !access.active {
        return Err("Tenant doesn't have access to add eMSP Tag.");
      }
      if tags[remote].tokenIssuer != Some(access.emspCredentials) {
        return Err("Tag from eMsp is not authorized.");
      }
      var tag := new Tag.Create(importedTag);
      r := Ok(tag);
    }

    /** The user of that email, created if there is none; anything after the creation may still throw. */
    method ProcessImportedUser(importedTag: ImportedTag, newUser: int) returns (r: Result<int>)
      modifies this`users
      ensures r.Ok? ==> importedTag.email in users && users[importedTag.email] == r.value
      ensures users
              == old(users) || (importedTag.email !in old(users) && users == old(users)[importedTag.email := newUser])
    {
      var saveThrew: bool, laterThrew: bool := *, *;
      if importedTag.email !in users {
        if saveThrew {
          return Err("saveUser");
        }
        users := users[importedTag.email := newUser];
      }
      if laterThrew {
        return Err("after saveUser");
      }
      r := Ok(users[importedTag.email]);
    }

    method ClearDefaultUserTag(user: int)
      modifies this`tags
      ensures tags == Cleared(old(tags), user)
    {
      tags := map id | id in tags :: if tags[id].userID == Some(user) then tags[id].(isDefault := false) else tags[id];
    }

    /** The tag to save, before any user is assigned; nothing has been written yet. */
    method PrepareTag(importedTag: ImportedTag) returns (r: Result<Tag>)
      ensures r.Err? <==> Refusal(tags, importedTag, transactions, access).Some?
      ensures r.Err? ==> Some(r.message) == Refusal(tags, importedTag, transactions, access)
      ensures r.Ok? ==>
                && fresh(r.value) && r.value.id == importedTag.id && r.value.userID == None
                && forall generated :: r.value.Document(generated) == Prepared(tags, importedTag, generated)
    {
      var tag := FindTag(importedTag);
      if !IsTruthy(importedTag.fromEMSP) && tag != null {
        RefusalOfFound(tags, importedTag, transactions, access, tag.id);
        assert tag.Document("") == tags[tag.id];
        var updated := UpdateTag(tag, importedTag);
        r := if updated.Ok? then Ok(tag) else Err(updated.message);
      } else if IsTruthy(importedTag.fromEMSP) {
        r := CreateLocalTag(importedTag);
      } else {
        assert !IsFound(tags, importedTag, importedTag.id);
        r := CreateTag(importedTag);
      }
    }

    method ProcessImportedTag(importedTag: ImportedTag, generated: string, newUser: int) returns (r: Result<StoredTag>)
      modifies this
      ensures OneDefault(old(tags)) ==> OneDefault(tags)
      ensures var refusal := Refusal(old(tags), importedTag, transactions, access);
              refusal.Some? ==> r == Err(refusal.value) && tags == old(tags) && users == old(users)
      ensures r.Ok? && !CarriesUser(importedTag) ==>
                && r.value == Prepared(old(tags), importedTag, generated)
                && tags == old(tags)[importedTag.id := r.value] && users == old(users)
      ensures r.Ok? ==> importedTag.id in tags && tags[importedTag.id] == r.value
      ensures r.Ok? ==> AsImported(old(tags), importedTag, generated, r.value)
      ensures r.Ok? ==> OthersKept(old(tags), tags, importedTag.id, r.value.userID)
      ensures r.Ok? ==>
                (r.value.userID.Some? <==>
                   importedTag.email != "" && importedTag.name != "" && importedTag.firstName != "")
      ensures r.Ok? && r.value.userID.Some? ==>
                && importedTag.email in users && r.value.userID == Some(users[importedTag.email]) && r.value.isDefault
                && forall other <- tags ::
                     other != importedTag.id && tags[other].userID == r.value.userID ==> !tags[other].isDefault
      ensures r.Ok? && CarriesUser(importedTag) ==>
                && importedTag.email in users && var user := users[importedTag.email];
                && r.value == Prepared(old(tags), importedTag, generated).(userID := Some(user), isDefault := true)
                && tags == Cleared(old(tags), user)[importedTag.id := r.value]
                && OnlyDefault(tags, user, importedTag.id)
      ensures r.Err? ==>
                || tags == old(tags)
                || (CarriesUser(importedTag) && importedTag.email in users
                    && tags == Cleared(old(tags), users[importedTag.email]))
      ensures users
              == old(users) || (importedTag.email !in old(users) && users == old(users)[importedTag.email := newUser])
    {
      var saveThrew: bool := *;
      var prepared := PrepareTag(importedTag);
      if prepared.Err? {
        return Err(prepared.message);
      }
      var tag := prepared.value;
      if CarriesUser(importedTag) {
        var user := ProcessImportedUser(importedTag, newUser);
        if user.Err? {
          return Err(user.message);
        }
        tag.userID := Some(user.value);
        ClearDefaultUserTag(user.value);
        tag.isDefault := true;
        AssignKeepsOneDefault(old(tags), user.value, tag.id, tag.Document(generated));
      } else {
        UnassignedKeepsOneDefault(tags, tag.id, tag.Document(generated));
      }
      if saveThrew {
        return Err("saveTag");
      }
      r := Ok(tag.Document(generated));
      PreparedAsImported(old(tags), importedTag, generated, r.value);
      tags := tags[tag.id := r.value];
    }

    /** Any number of imports, failed ones included, keep at most one default tag per user. */
    method ImportAll(importedTags: seq<ImportedTag>)
      requires OneDefault(tags)
      modifies this
      ensures OneDefault(tags)
    {
      for i := 0 to |importedTags|
        invariant OneDefault(tags)
      {
        var generated: string, newUser: int := *, *;
        var _ := ProcessImportedTag(importedTags[i], generated, newUser);
      }
    }
  }

  /**
    What the saved tag has from the import. Only a tag that was there under the same id, and
    is not of an eMSP, keeps its issuers.
   */
  ghost predicate AsImported(tags: Tags, importedTag: ImportedTag, generated: string, saved: StoredTag) {
    && saved.description == importedTag.description && saved.active == importedTag.autoActivate
    && (importedTag.visualID.Some? ==> saved.visualID == importedTag.visualID.value)
    && (importedTag.visualID.None? ==> saved.visualID == generated)
    && (saved.fromEMSP <==> importedTag.fromEMSP == Flag(true) || importedTag.fromEMSP == Text("true"))
    && if importedTag.id in tags && (importedTag.fromEMSP == Absent || importedTag.fromEMSP == Flag(false)
                                     || importedTag.fromEMSP == Text(""))
       then saved.issuer == tags[importedTag.id].issuer && saved.tokenIssuer == tags[importedTag.id].tokenIssuer
            && (saved.userID.None? ==> saved.isDefault == tags[importedTag.id].isDefault)
       else saved.issuer && saved.tokenIssuer == None && (saved.userID.None? ==> !saved.isDefault)
  }

  /** What stops an import before anything is written. */
  ghost function Refusal(tags: Tags, importedTag: ImportedTag, transactions: string -> nat,
                         access: DoubleAccess): Option<string> {
    if IsTruthy(importedTag.fromEMSP) then LocalTagObjection(tags, importedTag, access)
    else if exists id :: IsFound(tags, importedTag, id) then
      var id :| IsFound(tags, importedTag, id);
      Objection(id, tags[id], transactions(id), importedTag)
    else None
  }

  lemma RefusalOfFound(tags: Tags, importedTag: ImportedTag, transactions: string -> nat, access: DoubleAccess,
                       id: string)
    requires !IsTruthy(importedTag.fromEMSP) && IsFound(tags, importedTag, id)
    ensures Refusal(tags, importedTag, transactions, access) == Objection(id, tags[id], transactions(id), importedTag)
  {
    forall other | IsFound(tags, importedTag, other)
      ensures other == id
    {
      FoundOnlyOne(tags, importedTag, id, other);
    }
  }

  /** An id that is not known but whose visual ID is can only be refused. */
  lemma VisualIDOnlyRefuses(tags: Tags, importedTag: ImportedTag, transactions: string -> nat, access: DoubleAccess,
                            id: string)
    requires !IsTruthy(importedTag.fromEMSP) && importedTag.id !in tags && IsFound(tags, importedTag, id)
    ensures Refusal(tags, importedTag, transactions, access).Some?
  {
    RefusalOfFound(tags, importedTag, transactions, access, id);
  }

  /** The guards are not on the eMSP path: an assigned, active tag is overwritten there. */
  lemma EmspImportOverwrites(existing: StoredTag, importedTag: ImportedTag, transactions: string -> nat,
                             access: DoubleAccess)
    requires existing.userID.Some? && existing.active && existing.tokenIssuer == Some(access.emspCredentials)
    requires access.active && importedTag.id == "T" && importedTag.fromEMSP == Flag(true)
    ensures var tags := map["T" := existing];
            && Refusal(tags, importedTag, transactions, access) == None
            && Prepared(tags, importedTag, "").userID == None
  {
    SplitNone("T", '*');
  }

  /** Every other tag is as it was, but no default any more if it is of that user. */
  ghost predicate OthersKept(before: Tags, after: Tags, id: string, user: Option<int>) {
    && after.Keys == before.Keys + {id}
    && forall other <- before :: other != id ==>
         after[other] == if user.Some? && before[other].userID == user then before[other].(isDefault := false)
                         else before[other]
  }

  /** What an import is refused for, in terms of what is stored. */
  lemma RefusedIff(tags: Tags, importedTag: ImportedTag, transactions: string -> nat, access: DoubleAccess)
    ensures var refused := Refusal(tags, importedTag, transactions, access).Some?;
            if importedTag.fromEMSP == Absent || importedTag.fromEMSP == Flag(false) || importedTag.fromEMSP == Text("")
            then
              if importedTag.id in tags then
                refused <==> tags[importedTag.id].userID.Some? || tags[importedTag.id].active
                             || transactions(importedTag.id) > 0
              else
                refused <==> exists id <- tags :: importedTag.visualID == Some(tags[id].visualID)
                               && tags[id].visualID != ""
                               && forall other <- tags :: tags[other].visualID == tags[id].visualID ==> other == id
            else
              var remote := Split(importedTag.id, '*')[0];
              refused <==> remote !in tags || !access.active || tags[remote].tokenIssuer != Some(access.emspCredentials)
  {
    if !IsTruthy(importedTag.fromEMSP) {
      if importedTag.id in tags {
        RefusalOfFound(tags, importedTag, transactions, access, importedTag.id);
      } else {
        forall id | id in tags && importedTag.visualID == Some(tags[id].visualID) && tags[id].visualID != ""
                    && forall other <- tags :: tags[other].visualID == tags[id].visualID ==> other == id
          ensures Refusal(tags, importedTag, transactions, access).Some?
        {
          assert IsFound(tags, importedTag, id);
          VisualIDOnlyRefuses(tags, importedTag, transactions, access, id);
        }
        if id :| IsFound(tags, importedTag, id) {
          assert id in tags && importedTag.visualID == Some(tags[id].visualID);
          forall other | other in tags && tags[other].visualID == tags[id].visualID
            ensures other == id
          {
            assert HasVisualID(tags, importedTag, other);
          }
        }
      }
    }
  }

  lemma PreparedAsImported(tags: Tags, importedTag: ImportedTag, generated: string, saved: StoredTag)
    requires var prepared := Prepared(tags, importedTag, generated);
             saved == if saved.userID.None? then prepared
                      else prepared.(userID := saved.userID, isDefault := saved.isDefault)
    ensures AsImported(tags, importedTag, generated, saved)
  {
  }

  /** The document saved if no user comes with the tag. */
  function Prepared(tags: Tags, importedTag: ImportedTag, generated: string): StoredTag {
    var doc := NewDocument(importedTag, generated);
    if !IsTruthy(importedTag.fromEMSP) && importedTag.id in tags then
      var existing := tags[importedTag.id];
      doc.(isDefault := existing.isDefault, issuer := existing.issuer, tokenIssuer := existing.tokenIssuer)
    else doc
  }
}
