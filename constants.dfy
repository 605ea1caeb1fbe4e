/**
 * The enumerations the core compares against. The files that define them
 * (common/constants/exemption.js, request-queue.js, coordinates.js) are not
 * part of this model: the strings below stand for their values, and every
 * property proved here depends only on their being pairwise distinct.
 */
module Constants {

  /** EXEMPTION_STATUS.DRAFT, EXEMPTION_STATUS.CLOSED */
  const DRAFT: string := "DRAFT"
  const CLOSED: string := "CLOSED"

  /** EXEMPTION_TYPE.EXEMPT_ACTIVITY */
  const EXEMPT_ACTIVITY: string := "EXEMPT_ACTIVITY"

  /** REQUEST_QUEUE_STATUS.PENDING */
  const PENDING: string := "PENDING"

  /** COORDINATE_SYSTEMS.WGS84 */
  const WGS84: string := "WGS84"
}
