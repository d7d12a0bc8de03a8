/** The unguarded log-meal handler: every call stores one more log, whatever is already there. */
module MealLog {
  import opened Ids
  import opened Responses
  import opened Documents
  import opened MealLogSchema

  /** `MealLogResponse`, returned as a plain body. */
  datatype MealLogResponse = MealLogResponse(message: string, loggedData: MealLogRequest)

  /**
   * `log_meal` (meal_log.py): the user id comes from the request body and the date is stored
   * unchecked; only `ObjectId(data.user_id)` can fail, with a 500 and nothing stored.
   */
  method LogMeal(db: Collection<MealLogDoc>, data: MealLogRequest) returns (resp: Response<MealLogResponse>)
    modifies db
    ensures !IsValidObjectId(data.userId) ==> resp == InternalError && db.docs == old(db.docs)
    ensures IsValidObjectId(data.userId) ==>
              && db.docs == old(db.docs) + [StoredLog(ObjectIdKey(data.userId), data)]
              && resp == Plain(MealLogResponse("Meal log saved successfully.", data))
  {
    if !IsValidObjectId(data.userId) {
      return InternalError;
    }
    db.InsertOne(StoredLog(ObjectIdKey(data.userId), data));
    resp := Plain(MealLogResponse("Meal log saved successfully.", data));
  }
}
