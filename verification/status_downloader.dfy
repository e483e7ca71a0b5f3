/** What a downloader tells about itself; Done, Failed and Redirect are final. */
module StatusDownloader {
  datatype State = Init | OnTheGo | Done | Failed | Redirect
}
