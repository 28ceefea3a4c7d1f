/** The personal details shared by donors and recipients, held by each of
    them as a value. Dates are day numbers. */
module Persons {

  datatype PersonInfo = PersonInfo(
    firstName: string,
    lastName: string,
    fatherName: string,
    motherName: string,
    dob: int,
    mobileNo: string,
    gender: string,
    email: string,
    bloodGroup: string,
    city: string,
    fullAddress: string)
}
