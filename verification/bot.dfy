/** Bot management rules (apps/server/internal/bot/biz/bot.go). */
module BotRules {
  import opened Wrappers
  import opened Text

  /** A tenant's bot; times are Unix seconds, 0 being the zero time. */
  datatype Bot = Bot(
    id: string, tenantId: string, name: string, description: string, status: string,
    createdAt: int, updatedAt: int)

  const BotNameRequired := BadRequest("BOT_NAME_REQUIRED")
  const BotStatusInvalid := BadRequest("BOT_STATUS_INVALID")
  const BotIdRequired := BadRequest("BOT_ID_REQUIRED")

  /** isValidStatus: exactly `active` or `disabled` (no trimming, no case
      folding). */
  predicate IsValidStatus(status: string) {
    status == "active" || status == "disabled"
  }

  /** CreateBot's checks: the name is trimmed and required, the description
      trimmed, and an empty status means `active`. */
  function CreateBotInput(bot: Bot): (r: Result<Bot>)
    ensures TrimSpace(bot.name) == "" ==> r == Fail(BotNameRequired)
    ensures TrimSpace(bot.name) != "" && bot.status != "" && !IsValidStatus(bot.status) ==> r == Fail(BotStatusInvalid)
    ensures r.Ok? <==> TrimSpace(bot.name) != "" && (bot.status == "" || IsValidStatus(bot.status))
    ensures r.Ok? ==>
      r.value.name == TrimSpace(bot.name) && r.value.description == TrimSpace(bot.description) &&
      IsValidStatus(r.value.status) && (bot.status != "" ==> r.value.status == bot.status) &&
      r.value.id == bot.id && r.value.tenantId == bot.tenantId &&
      r.value.createdAt == bot.createdAt && r.value.updatedAt == bot.updatedAt
  {
    var name := TrimSpace(bot.name);
    if name == "" then Fail(BotNameRequired)
    else
      var status := if bot.status == "" then "active" else bot.status;
      if !IsValidStatus(status) then Fail(BotStatusInvalid)
      else Ok(bot.(name := name, description := TrimSpace(bot.description), status := status))
  }

  /** The bot id of GetBot and DeleteBot: trimmed and required. */
  function BotIdInput(id: string): (r: Result<string>)
    ensures r.Fail? <==> TrimSpace(id) == ""
    ensures r.Fail? ==> r.error == BotIdRequired
    ensures r.Ok? ==> r.value == TrimSpace(id)
  {
    if TrimSpace(id) == "" then Fail(BotIdRequired) else Ok(TrimSpace(id))
  }

  /** UpdateBot's checks: the id is trimmed and required, name and
      description trimmed, and the status may be empty (keep the current
      one) but is otherwise validated. */
  function UpdateBotInput(bot: Bot): (r: Result<Bot>)
    ensures TrimSpace(bot.id) == "" ==> r == Fail(BotIdRequired)
    ensures r.Ok? <==> TrimSpace(bot.id) != "" && (bot.status == "" || IsValidStatus(bot.status))
    ensures r.Fail? && TrimSpace(bot.id) != "" ==> r.error == BotStatusInvalid
    ensures r.Ok? ==>
      r.value == bot.(id := TrimSpace(bot.id), name := TrimSpace(bot.name), description := TrimSpace(bot.description))
  {
    var id := TrimSpace(bot.id);
    if id == "" then Fail(BotIdRequired)
    else if bot.status != "" && !IsValidStatus(bot.status) then Fail(BotStatusInvalid)
    else Ok(bot.(id := id, name := TrimSpace(bot.name), description := TrimSpace(bot.description)))
  }

  /** ListBots' paging: a limit of 0 or less becomes 50, a limit above 200
      is capped at 200, and a negative offset becomes 0. */
  function ListBotsWindow(limit: int, offset: int): (r: (int, int))
    ensures 1 <= r.0 <= 200 && r.1 >= 0
    ensures limit <= 0 ==> r.0 == 50
    ensures limit > 200 ==> r.0 == 200
    ensures 1 <= limit <= 200 ==> r.0 == limit
    ensures r.1 == (if offset < 0 then 0 else offset)
  {
    var limit := if limit <= 0 then 50 else limit;
    var limit := if limit > 200 then 200 else limit;
    (limit, if offset < 0 then 0 else offset)
  }

  /** Validated input passes validation again unchanged. */
  lemma BotInputIdempotent(bot: Bot)
    ensures CreateBotInput(bot).Ok? ==> CreateBotInput(CreateBotInput(bot).value) == CreateBotInput(bot)
    ensures UpdateBotInput(bot).Ok? ==> UpdateBotInput(UpdateBotInput(bot).value) == UpdateBotInput(bot)
  {
    TrimSpaceIdempotent(bot.name);
    TrimSpaceIdempotent(bot.description);
    TrimSpaceIdempotent(bot.id);
  }
}

/** The bot table (apps/server/internal/bot/data/bot.go), keyed by
    (tenant id, bot id). */
module BotStore {
  import opened Wrappers
  import opened Text
  import opened Contexts
  import opened Tenancy
  import opened BotRules

  const BotNotFound := NotFound("BOT_NOT_FOUND")
  const BotDuplicate := Conflict("BOT_DUPLICATE")

  /** The row CreateBot inserts: a fresh id when none was given, status
      `active` when empty, the context's tenant, creation time defaulting
      to now, update time always now. */
  function NewRow(bot: Bot, tenantId: string, freshId: string, now: int): (b: Bot)
    ensures b.id == (if bot.id == "" then freshId else bot.id)
    ensures b.status == (if bot.status == "" then "active" else bot.status)
    ensures b.tenantId == tenantId && b.name == bot.name && b.description == bot.description
    ensures b.createdAt == (if bot.createdAt == 0 then now else bot.createdAt) && b.updatedAt == now
  {
    bot.(id := if bot.id == "" then freshId else bot.id,
         status := if bot.status == "" then "active" else bot.status,
         tenantId := tenantId,
         createdAt := if bot.createdAt == 0 then now else bot.createdAt,
         updatedAt := now)
  }

  /** The row UpdateBot writes: blank name, description and status keep
      the current values, the creation time is the current row's, the
      update time is now. */
  function Merged(current: Bot, bot: Bot, tenantId: string, now: int): (b: Bot)
    ensures b.id == bot.id && b.tenantId == tenantId
    ensures b.name == (if TrimSpace(bot.name) == "" then current.name else bot.name)
    ensures b.description == (if TrimSpace(bot.description) == "" then current.description else bot.description)
    ensures b.status == (if TrimSpace(bot.status) == "" then current.status else bot.status)
    ensures b.createdAt == current.createdAt && b.updatedAt == now
  {
    bot.(name := if TrimSpace(bot.name) == "" then current.name else bot.name,
         description := if TrimSpace(bot.description) == "" then current.description else bot.description,
         status := if TrimSpace(bot.status) == "" then current.status else bot.status,
         tenantId := tenantId,
         createdAt := current.createdAt,
         updatedAt := now)
  }

  /** An update with every field blank rewrites only the update time. */
  lemma BlankUpdateKeepsRow(current: Bot, now: int)
    ensures Merged(current, Bot(current.id, "", "", "", "", 0, 0), current.tenantId, now) == current.(updatedAt := now)
  {
  }

  /** Applying the same update twice is applying it once (up to the time
      stamp). */
  lemma MergedIdempotent(current: Bot, bot: Bot, tenantId: string, now: int, later: int)
    ensures Merged(Merged(current, bot, tenantId, now), bot, tenantId, later) == Merged(current, bot, tenantId, later)
  {
  }

  class BotTable {
    var rows: map<(string, string), Bot>

    /** Every row is stored under its own tenant and id. */
    ghost predicate Valid()
      reads this
    {
      forall k :: k in rows ==> rows[k].tenantId == k.0 && rows[k].id == k.1
    }

    constructor ()
      ensures rows == map[] && Valid()
    {
      rows := map[];
    }

    /** GetBot: the tenant's row with that id, NotFound otherwise. */
    function GetBot(ctx: Context, id: string): (r: Result<Bot>)
      reads this
      ensures RequireTenantID(ctx).Fail? ==> r == Fail(TenantMissing)
      ensures RequireTenantID(ctx).Ok? ==>
        ((RequireTenantID(ctx).value, id) in rows ==> r == Ok(rows[(RequireTenantID(ctx).value, id)])) &&
        ((RequireTenantID(ctx).value, id) !in rows ==> r == Fail(BotNotFound))
      ensures Valid() && r.Ok? ==> r.value.id == id && r.value.tenantId == RequireTenantID(ctx).value
    {
      var tenant :- RequireTenantID(ctx);
      if (tenant, id) in rows then Ok(rows[(tenant, id)]) else Fail(BotNotFound)
    }

    /** CreateBot: the stamped row is inserted; an existing row with the
        same key is a duplicate. */
    method CreateBot(ctx: Context, bot: Bot, freshId: string, now: int) returns (r: Result<Bot>)
      requires Valid()
      modifies this
      ensures Valid()
      ensures RequireTenantID(ctx).Fail? ==> r == Fail(TenantMissing) && rows == old(rows)
      ensures RequireTenantID(ctx).Ok? ==>
        var b := NewRow(bot, RequireTenantID(ctx).value, freshId, now);
        ((RequireTenantID(ctx).value, b.id) in old(rows) ==> r == Fail(BotDuplicate) && rows == old(rows)) &&
        ((RequireTenantID(ctx).value, b.id) !in old(rows) ==>
           r == Ok(b) && rows == old(rows)[(RequireTenantID(ctx).value, b.id) := b])
    {
      var tenant := RequireTenantID(ctx);
      if tenant.Fail? {
        return Fail(tenant.error);
      }
      var b := bot;
      if b.id == "" {
        b := b.(id := freshId);
      }
      if b.status == "" {
        b := b.(status := "active");
      }
      b := b.(tenantId := tenant.value);
      if b.createdAt == 0 {
        b := b.(createdAt := now);
      }
      b := b.(updatedAt := now);
      if (tenant.value, b.id) in rows {
        return Fail(BotDuplicate);
      }
      rows := rows[(tenant.value, b.id) := b];
      r := Ok(b);
    }

    /** UpdateBot: the lookup error when the bot does not exist; otherwise
        the merged row replaces the current one. */
    method UpdateBot(ctx: Context, bot: Bot, now: int) returns (r: Result<Bot>)
      requires Valid()
      modifies this
      ensures Valid()
      ensures old(GetBot(ctx, bot.id)).Fail? ==> r == old(GetBot(ctx, bot.id)) && rows == old(rows)
      ensures old(GetBot(ctx, bot.id)).Ok? ==>
        var b := Merged(old(GetBot(ctx, bot.id)).value, bot, RequireTenantID(ctx).value, now);
        r == Ok(b) && rows == old(rows)[(RequireTenantID(ctx).value, bot.id) := b]
    {
      var tenant := RequireTenantID(ctx);
      if tenant.Fail? {
        return Fail(tenant.error);
      }
      var current := GetBot(ctx, bot.id);
      if current.Fail? {
        return Fail(current.error);
      }
      var b := bot;
      if TrimSpace(b.name) == "" {
        b := b.(name := current.value.name);
      }
      if TrimSpace(b.description) == "" {
        b := b.(description := current.value.description);
      }
      if TrimSpace(b.status) == "" {
        b := b.(status := current.value.status);
      }
      b := b.(tenantId := tenant.value, createdAt := current.value.createdAt, updatedAt := now);
      rows := rows[(tenant.value, bot.id) := b];
      r := Ok(b);
    }

    /** DeleteBot: deleting no row is BOT_NOT_FOUND. */
    method DeleteBot(ctx: Context, id: string) returns (out: Outcome)
      requires Valid()
      modifies this
      ensures Valid()
      ensures RequireTenantID(ctx).Fail? ==> out == Failed(TenantMissing) && rows == old(rows)
      ensures RequireTenantID(ctx).Ok? ==>
        ((RequireTenantID(ctx).value, id) in old(rows) ==> out == Pass && rows == old(rows) - {(RequireTenantID(ctx).value, id)}) &&
        ((RequireTenantID(ctx).value, id) !in old(rows) ==> out == Failed(BotNotFound) && rows == old(rows))
    {
      var tenant := RequireTenantID(ctx);
      if tenant.Fail? {
        return Failed(tenant.error);
      }
      if (tenant.value, id) !in rows {
        return Failed(BotNotFound);
      }
      rows := rows - {(tenant.value, id)};
      out := Pass;
    }
  }

  /** A bot created without a status reads back active, with the name and
      description trimmed; after deleting it, it is not found. */
  method CreateGetDelete(ctx: Context, bot: Bot, freshId: string, now: int) returns (got: Result<Bot>, afterDelete: Result<Bot>)
    requires RequireTenantID(ctx).Ok? && CreateBotInput(bot).Ok? && bot.status == "" && bot.id == ""
    ensures got.Ok? && got.value.status == "active" && got.value.name == TrimSpace(bot.name)
    ensures got.value.description == TrimSpace(bot.description) && got.value.id == freshId
    ensures afterDelete == Fail(BotNotFound)
  {
    var table := new BotTable();
    var input := CreateBotInput(bot).value;
    var created := table.CreateBot(ctx, input, freshId, now);
    got := table.GetBot(ctx, freshId);
    var _ := table.DeleteBot(ctx, freshId);
    afterDelete := table.GetBot(ctx, freshId);
  }
}
