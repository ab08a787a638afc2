/** The gate between the server's deployment row and the worker's progress. */
module Credentials {
  import opened Wrappers
  import opened Faults
  import opened Status
  import opened StatusConsumer
  import opened Text

  datatype Installation = Installation(active: bool, connected: bool, account: int)

  datatype CredentialError = BlankId | UnknownDeployment | NotBuildable | UnknownInstallation | NotConnected | NoProvider | TokenRefused

  datatype CloneCredential = CloneCredential(username: string, token: string)

  // None stands for a missing token provider, a provider answering None for an error.
  type TokenProvider = Option<int -> Option<string>>

  /** Only what the server has stored decides, nothing that came with the message. */
  function GetCloneCredential(rows: Rows, installations: map<string, Installation>, tokens: TokenProvider, id: string):
    (r: Result<CloneCredential, CredentialError>)
    ensures r.Ok? ==> id in rows && Grantable(rows[id])
  {
    if TrimSpace(id) == "" then Err(BlankId)
    else if id !in rows then Err(UnknownDeployment)
    else
      var row := rows[id];
      if row.status.Success? || row.status.Canceled? || row.installation == "" then Err(NotBuildable)
      else if row.installation !in installations then Err(UnknownInstallation)
      else
        var i := installations[row.installation];
        if !i.active || !i.connected then Err(NotConnected)
        else if tokens.None? then Err(NoProvider)
        else if tokens.value(i.account).None? then Err(TokenRefused)
        else Ok(CloneCredential("x-access-token", tokens.value(i.account).value))
  }

  predicate Grantable(r: Row) { !r.status.Success? && !r.status.Canceled? && r.installation != "" }

  /** What the server's rows have to say for a credential to be had. */
  predicate Available(rows: Rows, id: string) { !Blank(id) && id in rows && Grantable(rows[id]) }

  /** The id and its row alone decide whether a credential can be had under some installation and tokens. */
  lemma GrantableExactly(rows: Rows, id: string)
    ensures (exists installations, tokens :: GetCloneCredential(rows, installations, tokens, id).Ok?)
            <==> Available(rows, id)
  {
    BlankExactly(id);
    hide TrimSpace, Blank;
    if TrimSpace(id) != "" && id in rows && Grantable(rows[id]) {
      var installations := map[rows[id].installation := Installation(true, true, 1)];
      assert GetCloneCredential(rows, installations, Some(_ => Some("t")), id).Ok?;
    }
  }

  // What the installation of a deployment has to be for a token of it.
  predicate Connected(rows: Rows, installations: map<string, Installation>, id: string)
    requires id in rows
  {
    var name := rows[id].installation;
    name in installations && installations[name].active && installations[name].connected
  }

  // The token that the provider gives for an account.
  function TokenFor(tokens: TokenProvider, account: int): Option<string> {
    if tokens.Some? then tokens.value(account) else None
  }

  /**
   A credential is granted exactly when the id and its row allow it, the row's
   own installation is recorded, active and connected, and the provider has a
   token for that installation's account; and it is that token.
   */
  lemma GrantedExactly(rows: Rows, installations: map<string, Installation>, tokens: TokenProvider, id: string)
    ensures var r := GetCloneCredential(rows, installations, tokens, id);
            && (r.Ok? <==>
                  && Available(rows, id) && Connected(rows, installations, id)
                  && TokenFor(tokens, installations[rows[id].installation].account).Some?)
            && (r.Ok? ==>
                  r.value.username == "x-access-token"
                  && Some(r.value.token) == TokenFor(tokens, installations[rows[id].installation].account))
  {
    BlankExactly(id);
    hide TrimSpace, Blank;
  }

  // The first obstacle is the one that is reported.
  lemma RefusalExactly(rows: Rows, installations: map<string, Installation>, tokens: TokenProvider, id: string)
    ensures var r := GetCloneCredential(rows, installations, tokens, id);
            && (r == Err(BlankId) <==> Blank(id))
            && (r == Err(UnknownDeployment) <==> !Blank(id) && id !in rows)
            && (r == Err(NotBuildable) <==> !Blank(id) && id in rows && !Grantable(rows[id]))
            && (r == Err(UnknownInstallation) <==> Available(rows, id) && rows[id].installation !in installations)
            && (r == Err(NotConnected) <==>
                  Available(rows, id) && rows[id].installation in installations && !Connected(rows, installations, id))
            && (r == Err(NoProvider) <==> Available(rows, id) && Connected(rows, installations, id) && tokens.None?)
  {
    BlankExactly(id);
    hide TrimSpace, Blank;
  }

  /** Only the stored installation's account matters: providers that agree on it give the same answer. */
  lemma OnlyOwnAccountMatters(rows: Rows, installations: map<string, Installation>, id: string,
                              t: int -> Option<string>, u: int -> Option<string>)
    requires id in rows && rows[id].installation in installations
    requires var account := installations[rows[id].installation].account; t(account) == u(account)
    ensures GetCloneCredential(rows, installations, Some(t), id) == GetCloneCredential(rows, installations, Some(u), id)
  {
    hide TrimSpace;
  }

  /** And only the deployment's own row and installation: whatever else is stored makes no difference. */
  lemma OnlyOwnRowMatters(rows: Rows, installations: map<string, Installation>, tokens: TokenProvider, id: string,
                          rows': Rows, installations': map<string, Installation>)
    requires id in rows && id in rows' && rows[id] == rows'[id] && rows[id].installation in installations
    requires rows[id].installation in installations' && installations[rows[id].installation] == installations'[rows[id].installation]
    ensures GetCloneCredential(rows, installations, tokens, id) == GetCloneCredential(rows', installations', tokens, id)
  {
    hide TrimSpace;
  }

  datatype Application = Application(update: Params, db: Db)

  function AppliedAll(rows: Rows, applications: seq<Application>): Rows {
    if applications == [] then rows
    else
      var last := applications[|applications| - 1];
      Applied(AppliedAll(rows, applications[..|applications| - 1]), last.update, last.db)
  }

  lemma FinalStatusStays(rows: Rows, p: Params, db: Db, id: string)
    ensures var after := Applied(rows, p, db);
            after.Keys == rows.Keys && (id in rows && rows[id].status.Terminal() ==> after[id].status == rows[id].status)
  {}

  lemma FinishedIsRefused(rows: Rows, id: string, installations: map<string, Installation>, tokens: TokenProvider)
    ensures id in rows && (rows[id].status.Success? || rows[id].status.Canceled?) ==>
              GetCloneCredential(rows, installations, tokens, id).Err?
  {}

  /**
   Once the stored status is success or canceled it stays, and no credential is
   granted again, whatever updates arrive later and however the database fails.
   */
  lemma {:induction false} FinishedStaysRefused(rows: Rows, id: string, applications: seq<Application>,
                                               installations: map<string, Installation>, tokens: TokenProvider)
    requires id in rows && (rows[id].status.Success? || rows[id].status.Canceled?)
    ensures var later := AppliedAll(rows, applications);
            && id in later && later[id].status == rows[id].status
            && GetCloneCredential(later, installations, tokens, id).Err?
  {
    hide GetCloneCredential, Applied;
    FinishedIsRefused(rows, id, installations, tokens);
    if applications != [] {
      var shorter, last := applications[..|applications| - 1], applications[|applications| - 1];
      FinishedStaysRefused(rows, id, shorter, installations, tokens);
      FinalStatusStays(AppliedAll(rows, shorter), last.update, last.db, id);
      FinishedIsRefused(AppliedAll(rows, applications), id, installations, tokens);
    }
  }
}
