/**
 * The `aws` credentials plugin (plugins/credentials/aws/aws.go): its factory, `Init`, which
 * chooses the session options from the configured fields, and `Credentials`. The SDK's
 * session and credential constructors are opaque: `newSession` stands for
 * `session.Must(session.NewSessionWithOptions(opts))`, and the options record which
 * credential provider was chosen and with what.
 */
module AwsCredentials {
  import opened Wrappers
  import opened Registry

  /** `session.SharedConfigState`; the zero value is `SharedConfigStateFromEnv`. */
  datatype SharedConfigState = SharedConfigStateFromEnv | SharedConfigEnable

  /** The credential provider put in the options, if any. */
  datatype CredentialsChoice =
    | NoCredentials
      /** `stscreds.NewCredentials(base, roleArn, ...)` with the provider's optional settings. */
    | AssumeRole(base: Session, roleArn: string, externalId: Option<string>, roleSessionName: Option<string>)
      /** `credentials.NewStaticCredentials(id, secret, token)`. */
    | Static(accessKeyId: string, secretAccessKey: string, token: string)

  /** The `session.Options` `Init` fills in: the shared-config state, the profile, the credentials and the region. */
  datatype Options = Options(sharedConfigState: SharedConfigState, profile: string, credentials: CredentialsChoice,
                             region: Option<string>)

  /** The options of a session built from nothing but the shared-config state. */
  function Bare(state: SharedConfigState): Options {
    Options(state, "", NoCredentials, None)
  }

  /** The plugin's configured fields, as the configuration file sets them; `sharedConfig` may be absent (nil). */
  datatype AwsConfig = AwsConfig(profile: string, accessKeyId: string, secretAccessKey: string, token: string,
                                 roleArn: string, externalId: string, region: string, roleSessionName: string,
                                 sharedConfig: Option<bool>)

  /** Some `s`, unless `s` is empty. */
  function NonEmpty(s: string): Option<string> {
    if s == "" then None else Some(s)
  }

  /** The options `Init` builds for a configuration, given the parent session and the session constructor. */
  function OptionsFor(c: AwsConfig, from: Option<Session>, newSession: Options -> Session): Options {
    var state := if c.sharedConfig.None? || c.sharedConfig.value then SharedConfigEnable else SharedConfigStateFromEnv;
    var creds :=
      if c.profile != "" then NoCredentials
      else if c.roleArn != "" then
        var base := if from.Some? then from.value else newSession(Bare(state));
        AssumeRole(base, c.roleArn, NonEmpty(c.externalId), NonEmpty(c.roleSessionName))
      else if c.accessKeyId != "" || c.secretAccessKey != "" || c.token != "" then
        Static(c.accessKeyId, c.secretAccessKey, c.token)
      else NoCredentials;
    Options(state, c.profile, creds, NonEmpty(c.region))
  }

  class Aws {
    var profile: string
    var accessKeyId: string
    var secretAccessKey: string
    var token: string
    var roleArn: string
    var externalId: string
    var region: string
    var roleSessionName: string
    var sharedConfig: Option<bool>
    var from: Option<Session>
    var session: Option<Session>

    /** The configured fields. */
    function Config(): AwsConfig
      reads this
    {
      AwsConfig(profile, accessKeyId, secretAccessKey, token, roleArn, externalId, region, roleSessionName, sharedConfig)
    }

    /** The factory: an unconfigured plugin whose parent session is `cred` when one is given. */
    constructor Factory(cred: Option<Session>)
      ensures Config() == AwsConfig("", "", "", "", "", "", "", "", None)
      ensures from == cred && session == None
    {
      profile, accessKeyId, secretAccessKey, token := "", "", "", "";
      roleArn, externalId, region, roleSessionName := "", "", "", "";
      sharedConfig := None;
      from := cred;
      session := None;
    }

    /**
     * `Init`: builds the options field by field and keeps the session made from them. It
     * never fails; a session constructor error is the SDK's panic.
     */
    method Init(newSession: Options -> Session) returns (err: Option<string>)
      modifies this
      ensures Config() == old(Config()) && from == old(from)
      ensures session == Some(newSession(OptionsFor(Config(), from, newSession)))
      ensures err == None
    {
      var state := SharedConfigStateFromEnv;
      if sharedConfig.None? || sharedConfig.value {
        state := SharedConfigEnable;
      }
      var opts := Options(state, "", NoCredentials, None);
      if profile != "" {
        opts := opts.(profile := profile);
      } else if roleArn != "" {
        var base: Session;
        if from.Some? {
          base := from.value;
        } else {
          base := newSession(opts);
        }
        var ext: Option<string> := None;
        if externalId != "" {
          ext := Some(externalId);
        }
        var name: Option<string> := None;
        if roleSessionName != "" {
          name := Some(roleSessionName);
        }
        opts := opts.(credentials := AssumeRole(base, roleArn, ext, name));
      } else if accessKeyId != "" || secretAccessKey != "" || token != "" {
        opts := opts.(credentials := Static(accessKeyId, secretAccessKey, token));
      }
      if region != "" {
        opts := opts.(region := Some(region));
      }
      session := Some(newSession(opts));
      err := None;
    }

    /** `Credentials`: the session `Init` built (nil before it), with no error. */
    method Credentials() returns (s: Option<Session>, err: Option<string>)
      ensures s == session && err == None
    {
      return session, None;
    }
  }

  /** Shared config is enabled exactly when the option is absent or true. */
  lemma SharedConfigEnabled(c: AwsConfig, from: Option<Session>, newSession: Options -> Session)
    ensures OptionsFor(c, from, newSession).sharedConfigState == SharedConfigEnable <==>
      c.sharedConfig == None || c.sharedConfig == Some(true)
  {
  }

  /** A profile wins: it is used, and no credentials are put in the options. */
  lemma ProfileFirst(c: AwsConfig, from: Option<Session>, newSession: Options -> Session)
    requires c.profile != ""
    ensures OptionsFor(c, from, newSession).profile == c.profile
    ensures OptionsFor(c, from, newSession).credentials == NoCredentials
  {
  }

  /**
   * Without a profile, a role is assumed from the parent session when there is one and from
   * a fresh session with the same shared-config state otherwise; the external id and the
   * session name are set only when given.
   */
  lemma RoleSecond(c: AwsConfig, from: Option<Session>, newSession: Options -> Session)
    requires c.profile == "" && c.roleArn != ""
    ensures var o := OptionsFor(c, from, newSession);
      && o.profile == ""
      && o.credentials.AssumeRole? && o.credentials.roleArn == c.roleArn
      && o.credentials.base == (if from.Some? then from.value else newSession(Bare(o.sharedConfigState)))
      && (o.credentials.externalId.Some? <==> c.externalId != "")
      && (c.externalId != "" ==> o.credentials.externalId.value == c.externalId)
      && (o.credentials.roleSessionName.Some? <==> c.roleSessionName != "")
      && (c.roleSessionName != "" ==> o.credentials.roleSessionName.value == c.roleSessionName)
  {
  }

  /**
   * Without a profile or a role, static credentials are used exactly when a key id, a
   * secret or a token is given, and carry all three as configured.
   */
  lemma StaticLast(c: AwsConfig, from: Option<Session>, newSession: Options -> Session)
    requires c.profile == "" && c.roleArn == ""
    ensures var o := OptionsFor(c, from, newSession);
      && o.profile == ""
      && (o.credentials.Static? <==> c.accessKeyId != "" || c.secretAccessKey != "" || c.token != "")
      && (o.credentials.Static? ==> o.credentials == Static(c.accessKeyId, c.secretAccessKey, c.token))
      && (!o.credentials.Static? ==> o.credentials == NoCredentials)
  {
  }

  /** The region is set exactly when one is given, whichever credentials are chosen. */
  lemma RegionWhenGiven(c: AwsConfig, from: Option<Session>, newSession: Options -> Session)
    ensures OptionsFor(c, from, newSession).region == (if c.region == "" then None else Some(c.region))
  {
  }

  /** The parent session matters only when a role is assumed without a profile. */
  lemma ParentOnlyForRole(c: AwsConfig, a: Option<Session>, b: Option<Session>, newSession: Options -> Session)
    requires c.profile != "" || c.roleArn == ""
    ensures OptionsFor(c, a, newSession) == OptionsFor(c, b, newSession)
  {
  }
}
