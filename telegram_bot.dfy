/**
 * The three-tenor Telegram revision of the caución bot: the PPI environment
 * switch, the rates message, and the subscriber set that `/suscribir`,
 * `/pausar` and the periodic broadcast update in place.
 *
 * The market-data client, the Telegram framework and its scheduler are not
 * modelled: fetched rates arrive as a parameter, and the outcome of each
 * `send_message` call comes from an oracle, the set of chat ids whose send
 * raises.
 */
module TelegramBot {
  import opened Outcomes

  // ---------------------------------------------------------------------------
  // PPIConfig.from_environment

  /**
   * The value passed as `env`: one of the two `Environment` members, or any
   * other value a dynamically typed caller might pass.
   */
  datatype Environment = Production | Sandbox | Unsupported(value: string)

  /** `PPIConfig`: the API key pair read from the process environment, and the sandbox flag. */
  datatype PPIConfig = PPIConfig(publicKey: Option<string>, privateKey: Option<string>, sandbox: bool)

  /** The `ValueError` raised for an unsupported environment. */
  datatype ConfigError = UnsupportedEnvironment(env: Environment)

  /** `getenv(name)`, over a snapshot of the process environment. */
  function Getenv(vars: map<string, string>, name: string): Option<string>
  {
    if name in vars then Some(vars[name]) else None
  }

  /** The names of the public and secret key variables each environment reads. */
  function KeyVariables(sandbox: bool): (string, string)
  {
    if sandbox then ("PPI_SANDBOX_PUBLIC_KEY", "PPI_SANDBOX_SECRET_KEY")
    else ("PPI_PUBLIC_KEY", "PPI_SECRET_KEY")
  }

  /** `PPIConfig.from_environment(env)`, or the `ValueError` it raises. */
  function FromEnvironment(env: Environment, vars: map<string, string>): (r: Result<PPIConfig, ConfigError>)
    ensures env.Unsupported? ==> r.Failure?
    ensures r.Success? ==> (r.value.publicKey.Some? <==> KeyVariables(r.value.sandbox).0 in vars)
    ensures r.Success? ==> (r.value.privateKey.Some? <==> KeyVariables(r.value.sandbox).1 in vars)
  {
    if env == Production then
      Success(PPIConfig(Getenv(vars, "PPI_PUBLIC_KEY"), Getenv(vars, "PPI_SECRET_KEY"), false))
    else if env == Sandbox then
      Success(PPIConfig(Getenv(vars, "PPI_SANDBOX_PUBLIC_KEY"), Getenv(vars, "PPI_SANDBOX_SECRET_KEY"), true))
    else
      Failure(UnsupportedEnvironment(env))
  }

  /** The environment a configuration belongs to, read back from its sandbox flag. */
  function EnvironmentOf(config: PPIConfig): Environment
  {
    if config.sandbox then Sandbox else Production
  }

  /**
   * The switch is total on the two members and an error on everything else;
   * a configuration names its environment through the sandbox flag, and its
   * keys come from that environment's own variable pair.
   */
  lemma FromEnvironmentRoundTrip(env: Environment, vars: map<string, string>)
    ensures FromEnvironment(env, vars).Success? <==> env == Production || env == Sandbox
    ensures FromEnvironment(env, vars).Failure? ==> FromEnvironment(env, vars).error == UnsupportedEnvironment(env)
    ensures FromEnvironment(env, vars).Success? ==>
              var c := FromEnvironment(env, vars).value;
              && EnvironmentOf(c) == env
              && c.sandbox == (env == Sandbox)
              && c.publicKey == Getenv(vars, KeyVariables(c.sandbox).0)
              && c.privateKey == Getenv(vars, KeyVariables(c.sandbox).1)
  {
  }

  // ---------------------------------------------------------------------------
  // format_rates_message

  const Cross: string := "\U{274C}"
  const Chart: string := "\U{1F4CA}"

  /** The fixed text sent when no rates could be fetched. */
  const FetchError: string := Cross + " Error al obtener las tasas de cauciones"

  /** The Markdown title line of a rates message. */
  const RatesTitle: string := Chart + " *TASAS DE CAUCIONES*\n\n"

  /**
   * The message body for a rates dict that holds every key; values are the
   * already-rendered text of each entry.
   */
  function RatesTable(r: map<string, string>): string
    requires "24h" in r && "48h" in r && "72h" in r && "timestamp" in r
  {
    RatesTitle
    + "\U{1F550} 24 horas: `" + r["24h"] + "%` TNA\n"
    + "\U{1F551} 48 horas: `" + r["48h"] + "%` TNA\n"
    + "\U{1F552} 72 horas: `" + r["72h"] + "%` TNA\n\n"
    + "\U{1F552} Actualizado: " + r["timestamp"]
  }

  /** The keys `format_rates_message` subscripts, in the order it does. */
  const RateKeys: seq<string> := ["24h", "48h", "72h", "timestamp"]

  /**
   * `format_rates_message(rates)`, or the `KeyError` it raises. Absent (`None`)
   * and empty rates are falsy and give the fixed error text.
   */
  function FormatRatesMessage(rates: Option<map<string, string>>): (r: Result<string, KeyError>)
    ensures rates.None? || rates.value == map[] ==> r == Success(FetchError)
    ensures r.Failure? ==> rates.Some? && r.error.key !in rates.value
  {
    if rates.None? || rates.value == map[] then Success(FetchError)
    else
      var r := rates.value;
      if "24h" !in r then Failure(KeyError("24h"))
      else if "48h" !in r then Failure(KeyError("48h"))
      else if "72h" !in r then Failure(KeyError("72h"))
      else if "timestamp" !in r then Failure(KeyError("timestamp"))
      else Success(RatesTable(r))
  }

  /**
   * The recipient can tell the two outcomes apart: the error text is sent
   * exactly when the rates are absent or empty, and a rates table never
   * reads as the error text.
   */
  lemma FetchErrorIffNoRates(rates: Option<map<string, string>>)
    ensures FormatRatesMessage(rates) == Success(FetchError) <==> rates.None? || rates.value == map[]
  {
    if rates.Some? && rates.value != map[] && FormatRatesMessage(rates).Success? {
      var table := RatesTable(rates.value);
      assert table[0] == Chart[0];
      assert FetchError[0] == Cross[0];
    }
  }

  /** The message raises exactly when non-empty rates lack one of the keys it reads. */
  lemma FormatRatesRaisesIffKeyMissing(rates: Option<map<string, string>>)
    ensures FormatRatesMessage(rates).Failure? <==>
              rates.Some? && rates.value != map[] && exists k :: k in RateKeys && k !in rates.value
    ensures FormatRatesMessage(rates).Failure? ==> FormatRatesMessage(rates).error.key in RateKeys
  {
  }

  // ---------------------------------------------------------------------------
  // CaucionBot

  /** Which of its two replies `/suscribir` sends. */
  datatype SubscribeReply = AlreadySubscribed | SubscriptionActivated

  /** Which of its two replies `/pausar` sends. */
  datatype PauseReply = UpdatesPaused | NotSubscribed

  /** What one run of the periodic broadcast did. */
  datatype BroadcastReport =
      /** No subscribers: returned before fetching or sending anything. */
    | NoSubscribers
      /** Building the message raised, so nothing was sent. */
    | MessageRaised(error: KeyError)
      /** The message, the chat ids tried in order, and those whose send raised. */
    | Broadcast(message: string, attempts: seq<int>, failed: seq<int>)

  /** No chat id is tried twice. */
  predicate Distinct(ids: seq<int>)
  {
    forall i, j :: 0 <= i < j < |ids| ==> ids[i] != ids[j]
  }

  /** The `failed_subscribers` list: the tried ids whose send raised, in the order they were tried. */
  function Failed(attempts: seq<int>, unreachable: set<int>): (f: seq<int>)
    ensures |f| <= |attempts|
    ensures forall id :: id in f ==> id in attempts && id in unreachable
    ensures Distinct(attempts) ==> Distinct(f)
  {
    if attempts == [] then []
    else
      var last := attempts[|attempts| - 1];
      Failed(attempts[..|attempts| - 1], unreachable) + (if last in unreachable then [last] else [])
  }

  /** A chat id is listed as failed exactly when it was tried and its send raised. */
  lemma {:induction false} FailedIff(attempts: seq<int>, unreachable: set<int>, id: int)
    ensures id in Failed(attempts, unreachable) <==> id in attempts && id in unreachable
  {
    if attempts != [] {
      var init := attempts[..|attempts| - 1];
      FailedIff(init, unreachable, id);
      assert attempts == init + [attempts[|attempts| - 1]];
    }
  }

  /** When every subscriber was tried, the failed list holds exactly the unreachable subscribers. */
  lemma FailedCoversUnreachable(attempts: seq<int>, unreachable: set<int>, tried: set<int>)
    requires forall id :: id in attempts <==> id in tried
    ensures (set k | 0 <= k < |Failed(attempts, unreachable)| :: Failed(attempts, unreachable)[k]) == tried * unreachable
  {
    var failed := Failed(attempts, unreachable);
    forall id ensures id in failed <==> id in tried && id in unreachable {
      FailedIff(attempts, unreachable, id);
    }
  }

  lemma NonEmptyHasMember(s: set<int>)
    requires s != {}
    ensures exists x :: x in s
  {
    if forall x :: x !in s {
      assert false;
    }
  }

  /**
   * The delivery loop of `send_rates_to_subscribers`: tries each subscriber
   * once, in whatever order the set yields them, and records in
   * `failed_subscribers` the ids whose send raised, without stopping.
   */
  method AttemptDeliveries(subscribers: set<int>, unreachable: set<int>)
    returns (attempts: seq<int>, failedSubscribers: seq<int>)
    ensures Distinct(attempts)
    ensures forall id :: id in attempts <==> id in subscribers
    ensures failedSubscribers == Failed(attempts, unreachable)
  {
    attempts, failedSubscribers := [], [];
    var pending := subscribers;
    while pending != {}
      invariant pending <= subscribers
      invariant forall id :: id in attempts <==> id in subscribers && id !in pending
      invariant Distinct(attempts)
      invariant failedSubscribers == Failed(attempts, unreachable)
      decreases pending
    {
      NonEmptyHasMember(pending);
      var chatId :| chatId in pending;
      assert (attempts + [chatId])[..|attempts|] == attempts;
      attempts := attempts + [chatId];
      if chatId in unreachable {
        failedSubscribers := failedSubscribers + [chatId];
      }
      pending := pending - {chatId};
    }
  }

  class CaucionBot {
    const telegramToken: string
    const ppiConfig: PPIConfig
    /** Chat ids of the users who asked for automatic updates. */
    var subscribers: set<int>

    /** `CaucionBot(...)` once its configuration was built: nobody is subscribed yet. */
    constructor (telegramToken: string, ppiConfig: PPIConfig)
      ensures this.telegramToken == telegramToken && this.ppiConfig == ppiConfig
      ensures subscribers == {}
    {
      this.telegramToken := telegramToken;
      this.ppiConfig := ppiConfig;
      subscribers := {};
    }

    /** `suscribir_command`: adds the caller's chat id unless it is already there. */
    method Subscribe(chatId: int) returns (reply: SubscribeReply)
      modifies this
      ensures reply == AlreadySubscribed <==> chatId in old(subscribers)
      ensures subscribers == old(subscribers) + {chatId}
    {
      if chatId in subscribers {
        reply := AlreadySubscribed;
      } else {
        subscribers := subscribers + {chatId};
        reply := SubscriptionActivated;
      }
    }

    /** `pausar_command`: removes the caller's chat id if it is there. */
    method Pause(chatId: int) returns (reply: PauseReply)
      modifies this
      ensures reply == UpdatesPaused <==> chatId in old(subscribers)
      ensures subscribers == old(subscribers) - {chatId}
    {
      if chatId in subscribers {
        subscribers := subscribers - {chatId};
        reply := UpdatesPaused;
      } else {
        reply := NotSubscribed;
      }
    }

    /**
     * `send_rates_to_subscribers`: with nobody subscribed it returns at once;
     * otherwise every subscriber is tried exactly once, a failing send does not
     * stop the others, and afterwards exactly the ids whose send raised are
     * dropped. `fetched` is what `get_caucion_rates` returned; `unreachable`
     * holds the chat ids whose `send_message` raises.
     */
    method SendRatesToSubscribers(fetched: Option<map<string, string>>, unreachable: set<int>)
      returns (report: BroadcastReport)
      modifies this
      ensures old(subscribers) == {} ==> report == NoSubscribers && subscribers == old(subscribers)
      ensures old(subscribers) != {} && FormatRatesMessage(fetched).Failure? ==>
                report == MessageRaised(FormatRatesMessage(fetched).error) && subscribers == old(subscribers)
      ensures old(subscribers) != {} && FormatRatesMessage(fetched).Success? ==>
                && report.Broadcast?
                && report.message == FormatRatesMessage(fetched).value
                && Distinct(report.attempts)
                && (forall id :: id in report.attempts <==> id in old(subscribers))
                && report.failed == Failed(report.attempts, unreachable)
                && subscribers == old(subscribers) - unreachable
    {
      if subscribers == {} {
        return NoSubscribers;
      }
      var formatted := FormatRatesMessage(fetched);
      if formatted.Failure? {
        return MessageRaised(formatted.error);
      }
      var message := formatted.value;

      var attempts, failedSubscribers := AttemptDeliveries(subscribers, unreachable);
      for j := 0 to |failedSubscribers|
        invariant subscribers == old(subscribers) - set k | 0 <= k < j :: failedSubscribers[k]
      {
        subscribers := subscribers - {failedSubscribers[j]};
      }
      FailedCoversUnreachable(attempts, unreachable, old(subscribers));
      return Broadcast(message, attempts, failedSubscribers);
    }
  }

  /**
   * `CaucionBot.__init__`: builds the configuration for `env`, and so raises
   * the `ValueError` for an unsupported environment.
   */
  method NewCaucionBot(telegramToken: string, env: Environment, vars: map<string, string>)
    returns (r: Result<CaucionBot, ConfigError>)
    ensures FromEnvironment(env, vars).Failure? ==> r == Failure(FromEnvironment(env, vars).error)
    ensures FromEnvironment(env, vars).Success? ==>
              && r.Success? && fresh(r.value)
              && r.value.ppiConfig == FromEnvironment(env, vars).value
              && r.value.telegramToken == telegramToken
              && r.value.subscribers == {}
  {
    var config := FromEnvironment(env, vars);
    if config.Failure? {
      return Failure(config.error);
    }
    var bot := new CaucionBot(telegramToken, config.value);
    return Success(bot);
  }

  /** `/suscribir` then `/pausar` from a chat that was not subscribed leaves the set as it was. */
  method SubscribeThenPause(bot: CaucionBot, chatId: int) returns (first: SubscribeReply, second: PauseReply)
    requires chatId !in bot.subscribers
    modifies bot
    ensures first == SubscriptionActivated && second == UpdatesPaused
    ensures bot.subscribers == old(bot.subscribers)
  {
    first := bot.Subscribe(chatId);
    second := bot.Pause(chatId);
  }
}
