/** A product review as stored in the "reviews" collection. */
module Reviews {
  import opened Firestore

  /** `rating` is the rating bar's value; `timestamp` the stored server time. */
  datatype Review = Review(
    orderId: string,
    productId: string,
    userId: string,
    rating: real,
    comment: string,
    timestamp: Value,
    userName: string,
    userEmail: string)
}
