/**
 * Configuration validation (src/services/config.ts): the checks run in a
 * fixed order and the first failing one decides the error; the web check
 * also rewrites the base name in place.  A JSON string counts as given
 * when it is present and not empty, a port when it is present and not
 * zero, a flag when it is `true`.
 */
module Config {
  import opened Wrappers
  import Dict
  import Route

  /** A string setting is given: present and not empty. */
  predicate Filled(s: Option<string>) {
    s.Some? && s.value != ""
  }

  /** A number setting is given: present and not zero. */
  predicate Set(n: Option<int>) {
    n.Some? && n.value != 0
  }

  datatype DatabaseConfig = DatabaseConfig(
    address: Option<string>, name: Option<string>, auth: bool, username: Option<string>, password: Option<string>)

  datatype WebConfig = WebConfig(enabled: bool, port: Option<int>, basename: Option<string>, publicUri: Option<string>)

  datatype SmtpConfig = SmtpConfig(
    host: Option<string>, port: Option<int>, user: Option<string>, pass: Option<string>,
    fromAddress: Option<string>, fromName: Option<string>)

  datatype VerificationConfig = VerificationConfig(enabled: bool, verifier: Option<string>)

  /** The `majors` value of a guild: absent (or falsy), some other JSON value, or an array. */
  datatype MajorsValue = NoMajors | MajorsNotArray | MajorsArray(prefixes: seq<string>)

  datatype GuildConfig = GuildConfig(
    majors: MajorsValue, moderatorCommandChannelId: Option<string>,
    courseSelectionChannelId: Option<string>, verificationChannelId: Option<string>)

  /** The `guilds` value: absent (or falsy), an array, or an object keyed by guild ID in key order. */
  datatype GuildsValue = NoGuilds | GuildsArray | GuildsObject(entries: seq<Dict.Entry<GuildConfig>>)

  datatype Config = Config(
    discordToken: Option<string>, database: Option<DatabaseConfig>, web: Option<WebConfig>,
    verification: Option<VerificationConfig>, smtp: Option<SmtpConfig>, guilds: GuildsValue)

  /** The error each check throws, in the order the checks run. */
  datatype ConfigError =
    | TokenMissing
    | DatabaseMissing | DatabaseAddressMissing | DatabaseNameMissing | DatabaseUsernameMissing | DatabasePasswordMissing
    | WebMissing | WebPortMissing
    | VerificationMissing | VerifierMissing | VerifierInvalid | VerificationSmtpMissing
    | SmtpMissing | SmtpHostMissing | SmtpPortMissing | SmtpUserMissing | SmtpPassMissing
    | SmtpFromAddressMissing | SmtpFromNameMissing
    | GuildsMissing | GuildsMalformed
    | MajorsMissing(guildId: string) | MajorsMalformed(guildId: string) | MajorsEmpty(guildId: string)
    | ModeratorChannelMissing(guildId: string) | CourseSelectionChannelMissing(guildId: string)
    | VerificationChannelMissing(guildId: string)

  function TokenError(token: Option<string>): Option<ConfigError> {
    if !Filled(token) then Some(TokenMissing) else None
  }

  /** `validateDatabaseConfig`. */
  function DatabaseError(db: Option<DatabaseConfig>): (e: Option<ConfigError>)
    ensures e.None? <==>
      db.Some? && Filled(db.value.address) && Filled(db.value.name) &&
      (db.value.auth ==> Filled(db.value.username) && Filled(db.value.password))
  {
    if db.None? then Some(DatabaseMissing)
    else if !Filled(db.value.address) then Some(DatabaseAddressMissing)
    else if !Filled(db.value.name) then Some(DatabaseNameMissing)
    else if db.value.auth && !Filled(db.value.username) then Some(DatabaseUsernameMissing)
    else if db.value.auth && !Filled(db.value.password) then Some(DatabasePasswordMissing)
    else None
  }

  /** The checks of `validateWebConfig`. */
  function WebError(web: Option<WebConfig>): (e: Option<ConfigError>)
    ensures e.None? <==> web.Some? && (web.value.enabled ==> Set(web.value.port))
  {
    if web.None? then Some(WebMissing)
    else if web.value.enabled && !Set(web.value.port) then Some(WebPortMissing)
    else None
  }

  /** `validateSMTPConfig`. */
  function SmtpError(smtp: Option<SmtpConfig>): (e: Option<ConfigError>)
    ensures e.None? <==>
      && smtp.Some? && Filled(smtp.value.host) && Set(smtp.value.port) && Filled(smtp.value.user)
      && Filled(smtp.value.pass) && Filled(smtp.value.fromAddress) && Filled(smtp.value.fromName)
  {
    if smtp.None? then Some(SmtpMissing)
    else if !Filled(smtp.value.host) then Some(SmtpHostMissing)
    else if !Set(smtp.value.port) then Some(SmtpPortMissing)
    else if !Filled(smtp.value.user) then Some(SmtpUserMissing)
    else if !Filled(smtp.value.pass) then Some(SmtpPassMissing)
    else if !Filled(smtp.value.fromAddress) then Some(SmtpFromAddressMissing)
    else if !Filled(smtp.value.fromName) then Some(SmtpFromNameMissing)
    else None
  }

  /**
   * `validateVerificationConfig`; `verifierTypes` are the values of the
   * verifier type enumeration.  SMTP is looked at only when verification
   * is enabled.
   */
  function VerificationError(v: Option<VerificationConfig>, smtp: Option<SmtpConfig>, verifierTypes: set<string>)
    : (e: Option<ConfigError>)
    ensures e != Some(SmtpMissing)
    ensures e.None? <==>
      v.Some? && (v.value.enabled ==>
        Filled(v.value.verifier) && v.value.verifier.value in verifierTypes && SmtpError(smtp).None?)
  {
    if v.None? then Some(VerificationMissing)
    else if !v.value.enabled then None
    else if !Filled(v.value.verifier) then Some(VerifierMissing)
    else if v.value.verifier.value !in verifierTypes then Some(VerifierInvalid)
    else if smtp.None? then Some(VerificationSmtpMissing)
    else SmtpError(smtp)
  }

  /** The checks of one guild, in order. */
  function GuildError(id: string, g: GuildConfig): (e: Option<ConfigError>)
    ensures e.None? <==>
      g.majors.MajorsArray? && g.majors.prefixes != [] && Filled(g.moderatorCommandChannelId) &&
      Filled(g.courseSelectionChannelId) && Filled(g.verificationChannelId)
  {
    if g.majors.NoMajors? then Some(MajorsMissing(id))
    else if g.majors.MajorsNotArray? then Some(MajorsMalformed(id))
    else if g.majors.prefixes == [] then Some(MajorsEmpty(id))
    else if !Filled(g.moderatorCommandChannelId) then Some(ModeratorChannelMissing(id))
    else if !Filled(g.courseSelectionChannelId) then Some(CourseSelectionChannelMissing(id))
    else if !Filled(g.verificationChannelId) then Some(VerificationChannelMissing(id))
    else None
  }

  /** The error of the first guild, in key order, that has one. */
  function FirstGuildError(entries: seq<Dict.Entry<GuildConfig>>): (e: Option<ConfigError>)
    ensures e.None? <==> forall i | 0 <= i < |entries| :: GuildError(entries[i].key, entries[i].value).None?
    ensures e.Some? ==> exists i | 0 <= i < |entries| ::
      e == GuildError(entries[i].key, entries[i].value) &&
      forall j | 0 <= j < i :: GuildError(entries[j].key, entries[j].value).None?
  {
    if entries == [] then None
    else
      var here := GuildError(entries[0].key, entries[0].value);
      if here.Some? then here
      else
        var e := FirstGuildError(entries[1..]);
        assert e.Some? ==> exists i | 0 <= i < |entries| ::
          e == GuildError(entries[i].key, entries[i].value) &&
          forall j | 0 <= j < i :: GuildError(entries[j].key, entries[j].value).None? by {
          if e.Some? {
            var i :| 0 <= i < |entries[1..]| && e == GuildError(entries[1..][i].key, entries[1..][i].value) &&
              forall j | 0 <= j < i :: GuildError(entries[1..][j].key, entries[1..][j].value).None?;
            assert e == GuildError(entries[i + 1].key, entries[i + 1].value);
            assert forall j | 0 <= j < i + 1 :: GuildError(entries[j].key, entries[j].value).None? by {
              forall j | 0 <= j < i + 1
                ensures GuildError(entries[j].key, entries[j].value).None?
              {
                if j > 0 {
                  assert entries[j] == entries[1..][j - 1];
                }
              }
            }
          }
        }
        assert e.None? <==> forall i | 0 <= i < |entries| :: GuildError(entries[i].key, entries[i].value).None? by {
          assert forall i | 1 <= i < |entries| :: entries[i] == entries[1..][i - 1];
        }
        e
  }

  /** `validateGuildsConfig`. */
  function GuildsError(guilds: GuildsValue): Option<ConfigError> {
    match guilds
    case NoGuilds => Some(GuildsMissing)
    case GuildsArray => Some(GuildsMalformed)
    case GuildsObject(entries) => FirstGuildError(entries)
  }

  /** `validateConfig`: the first error of the token, database, web, verification and guild checks. */
  function FirstError(c: Config, verifierTypes: set<string>): Option<ConfigError> {
    if TokenError(c.discordToken).Some? then TokenError(c.discordToken)
    else if DatabaseError(c.database).Some? then DatabaseError(c.database)
    else if WebError(c.web).Some? then WebError(c.web)
    else if VerificationError(c.verification, c.smtp, verifierTypes).Some? then VerificationError(c.verification, c.smtp, verifierTypes)
    else GuildsError(c.guilds)
  }

  /** Everything a bot may start with, stated setting by setting. */
  predicate Acceptable(c: Config, verifierTypes: set<string>) {
    && Filled(c.discordToken)
    && c.database.Some? && Filled(c.database.value.address) && Filled(c.database.value.name)
    && (c.database.value.auth ==> Filled(c.database.value.username) && Filled(c.database.value.password))
    && c.web.Some? && (c.web.value.enabled ==> Set(c.web.value.port))
    && c.verification.Some?
    && (c.verification.value.enabled ==>
          && Filled(c.verification.value.verifier) && c.verification.value.verifier.value in verifierTypes
          && c.smtp.Some? && Filled(c.smtp.value.host) && Set(c.smtp.value.port) && Filled(c.smtp.value.user)
          && Filled(c.smtp.value.pass) && Filled(c.smtp.value.fromAddress) && Filled(c.smtp.value.fromName))
    && c.guilds.GuildsObject?
    && forall i | 0 <= i < |c.guilds.entries| ::
         && c.guilds.entries[i].value.majors.MajorsArray?
         && c.guilds.entries[i].value.majors.prefixes != []
         && Filled(c.guilds.entries[i].value.moderatorCommandChannelId)
         && Filled(c.guilds.entries[i].value.courseSelectionChannelId)
         && Filled(c.guilds.entries[i].value.verificationChannelId)
  }

  /** Validation passes exactly on acceptable configurations. */
  lemma FirstErrorNoneIffAcceptable(c: Config, verifierTypes: set<string>)
    ensures FirstError(c, verifierTypes).None? <==> Acceptable(c, verifierTypes)
  {
    if c.guilds.GuildsObject? {
      var entries := c.guilds.entries;
      assert FirstGuildError(entries).None? <==>
        forall i | 0 <= i < |entries| :: GuildError(entries[i].key, entries[i].value).None?;
    }
  }

  /** With verification present but disabled, the SMTP settings never matter. */
  lemma SmtpIgnoredWhenVerificationDisabled(c: Config, smtp: Option<SmtpConfig>, verifierTypes: set<string>)
    requires c.verification.Some? && !c.verification.value.enabled
    ensures FirstError(c.(smtp := smtp), verifierTypes) == FirstError(c, verifierTypes)
  {
  }

  /** A missing token is reported whatever else is wrong. */
  lemma TokenCheckedFirst(c: Config, verifierTypes: set<string>)
    requires !Filled(c.discordToken)
    ensures FirstError(c, verifierTypes) == Some(TokenMissing)
  {
  }

  /** The configuration after a web check that passed: an enabled web config has its base name stripped. */
  function Sanitized(c: Config): (r: Config)
    ensures r.(web := c.web) == c
  {
    if c.web.Some? && c.web.value.enabled && Set(c.web.value.port) then
      c.(web := Some(c.web.value.(basename := Some(Route.RemoveLeadingAndTrailingSlashes(c.web.value.basename)))))
    else c
  }

  /** The token, database and web checks all pass. */
  predicate PassesWebCheck(c: Config) {
    TokenError(c.discordToken).None? && DatabaseError(c.database).None? && WebError(c.web).None?
  }

  class ConfigService {
    var config: Config

    constructor (loaded: Config)
      ensures config == loaded
    {
      config := loaded;
    }

    /** `validateWebConfig`: checks, and strips the base name of an enabled web config. */
    method ValidateWebConfig() returns (e: Option<ConfigError>)
      modifies this
      ensures e == WebError(old(config).web)
      ensures config == (if e.None? then Sanitized(old(config)) else old(config))
    {
      if config.web.None? {
        return Some(WebMissing);
      }
      if config.web.value.enabled {
        if !Set(config.web.value.port) {
          return Some(WebPortMissing);
        }
        var basename := Route.RemoveLeadingAndTrailingSlashes(config.web.value.basename);
        config := config.(web := Some(config.web.value.(basename := Some(basename))));
      }
      e := None;
    }

    /** `validateGuildsConfig`: the guild checks run in key order and the first failure stops them. */
    method ValidateGuildsConfig() returns (e: Option<ConfigError>)
      ensures e == GuildsError(config.guilds)
    {
      if config.guilds.NoGuilds? {
        return Some(GuildsMissing);
      }
      if config.guilds.GuildsArray? {
        return Some(GuildsMalformed);
      }
      var entries := config.guilds.entries;
      for i := 0 to |entries|
        invariant forall j | 0 <= j < i :: GuildError(entries[j].key, entries[j].value).None?
      {
        var here := GuildError(entries[i].key, entries[i].value);
        if here.Some? {
          return here;
        }
      }
      e := None;
    }

    /**
     * `validateConfig`: the error is that of the first failing check; a
     * configuration that gets past the database check leaves the web check
     * with its base name stripped (or is left as it was, if the web check
     * fails).
     */
    method ValidateConfig(verifierTypes: set<string>) returns (e: Option<ConfigError>)
      modifies this
      ensures e == FirstError(old(config), verifierTypes)
      ensures PassesWebCheck(old(config)) ==> config == Sanitized(old(config))
      ensures !PassesWebCheck(old(config)) ==> config == old(config)
    {
      e := TokenError(config.discordToken);
      if e.Some? {
        return;
      }
      e := DatabaseError(config.database);
      if e.Some? {
        return;
      }
      e := ValidateWebConfig();
      if e.Some? {
        return;
      }
      e := VerificationError(config.verification, config.smtp, verifierTypes);
      if e.Some? {
        return;
      }
      e := ValidateGuildsConfig();
    }
  }
}
