/** The guarded log-meal handler: ISO date check, one log per (user, date), then the insert. */
module MealLogRoutes {
  import opened Wrappers
  import opened Ids
  import opened Responses
  import opened Documents
  import opened MealLogSchema

  /** The `data` member of the 201 response. */
  datatype MealLogEcho = MealLogEcho(userId: string, date: string,
                                     breakfast: Option<string>, lunch: Option<string>, dinner: Option<string>)

  const InvalidDateMessage: string := "Invalid date format."
  const SavedMessage: string := "Meal log saved successfully."

  function DuplicateMessage(date: string): string
  {
    "Meal log already exists for " + date + "."
  }

  /**
   * `log_meal` (meal_log_routes.py): `userId` is the authenticated user, `isIsoDate` stands for
   * `datetime.fromisoformat` succeeding. `data.userId` is never used. An invalid id makes
   * `ObjectId(user_id)` raise: a 500 with nothing stored.
   */
  method LogMeal(db: Collection<MealLogDoc>, data: MealLogRequest, userId: string, isIsoDate: string -> bool)
    returns (resp: Response<MealLogEcho>)
    modifies db
    ensures !isIsoDate(data.date) ==>
              resp == ApiResponse(InvalidDateMessage, 400, None, false) && db.docs == old(db.docs)
    ensures isIsoDate(data.date) && !IsValidObjectId(userId) ==> resp == InternalError && db.docs == old(db.docs)
    ensures isIsoDate(data.date) && IsValidObjectId(userId) ==>
              var key := ObjectIdKey(userId);
              if FindFirst(old(db.docs), LogFor(key, data.date)) < |old(db.docs)| then
                resp == ApiResponse(DuplicateMessage(data.date), 409, None, false) && db.docs == old(db.docs)
              else
                && db.docs == old(db.docs) + [StoredLog(key, data)]
                && resp == ApiResponse(SavedMessage, 201,
                                       Some(MealLogEcho(userId, data.date, data.breakfast, data.lunch, data.dinner)))
    ensures OnePerDay(old(db.docs)) ==> OnePerDay(db.docs)
  {
    if !isIsoDate(data.date) {
      return ApiResponse(InvalidDateMessage, 400, None, false);
    }
    if !IsValidObjectId(userId) {
      return InternalError;
    }
    var key := ObjectIdKey(userId);
    var existing := FindFirst(db.docs, LogFor(key, data.date));
    if existing < |db.docs| {
      return ApiResponse(DuplicateMessage(data.date), 409, None, false);
    }
    if OnePerDay(db.docs) {
      InsertNewDayKeepsOnePerDay(db.docs, StoredLog(key, data));
    }
    db.InsertOne(StoredLog(key, data));
    resp := ApiResponse(SavedMessage, 201, Some(MealLogEcho(userId, data.date, data.breakfast, data.lunch, data.dinner)));
  }

  /** A 409 is answered exactly when the user already has a log with that date. */
  lemma {:induction false} DuplicateIffLogged(docs: seq<MealLogDoc>, key: Key, date: string)
    ensures FindFirst(docs, LogFor(key, date)) < |docs| <==> exists l :: l in docs && l.userId == key && l.date == date
  {
    var k := FindFirst(docs, LogFor(key, date));
    if k < |docs| {
      assert docs[k] in docs && LogFor(key, date)(docs[k]);
    } else {
      forall l | l in docs
        ensures !(l.userId == key && l.date == date)
      {
        var i :| 0 <= i < |docs| && docs[i] == l;
        assert !LogFor(key, date)(docs[i]);
      }
    }
  }
}
