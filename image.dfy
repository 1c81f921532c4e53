/**
 * Image (ImageVK.cpp): a VkImage with an optional view and optional device
 * memory.  Whether the engine owns the image is told by the memory: only an
 * image that has device memory is destroyed with its wrapper, so swapchain
 * images, which the swapchain owns, are adopted without memory and never
 * destroyed here.
 */
module ImageVK {
  import opened Vulkan
  import opened MappableVK

  class Image {
    const device: Device
    /** m_image. */
    var image: Handle
    /** m_imageView; NULL_HANDLE until CreateImageView. */
    var imageView: Handle
    /** m_deviceMemory (from IMappable). */
    var deviceMemory: Handle

    /** Image(device, image): adopt an existing image, with no memory and no view. */
    constructor Wrap(device: Device, image: Handle)
      ensures this.device == device && this.image == image
      ensures imageView == NULL_HANDLE && deviceMemory == NULL_HANDLE
    {
      this.device := device;
      this.image := image;
      imageView := NULL_HANDLE;
      deviceMemory := NULL_HANDLE;
    }

    /** The view CreateImageView describes: identity swizzle, mips from 0, one layer from 0. */
    function ViewCreateInfo(format: Format, aspectMask: set<ImageAspect>, levelCount: Uint32, viewType: ImageViewType): (info: ImageViewCreateInfo)
      reads this
      ensures info.image == image && info.format == format && info.viewType == viewType
      ensures info.components == ComponentMapping(SwizzleIdentity, SwizzleIdentity, SwizzleIdentity, SwizzleIdentity)
      ensures info.subresourceRange == ImageSubresourceRange(aspectMask, 0, levelCount, 0, 1)
    {
      ImageViewCreateInfo(image, viewType, format,
        ComponentMapping(SwizzleIdentity, SwizzleIdentity, SwizzleIdentity, SwizzleIdentity),
        ImageSubresourceRange(aspectMask, 0, levelCount, 0, 1))
    }

    /** CreateImageView: create a view of this image and record it. */
    method CreateImageView(format: Format, aspectMask: set<ImageAspect>, levelCount: Uint32, viewType: ImageViewType)
      modifies this, device
      ensures imageView == old(device.nextHandle) && device.nextHandle == imageView + 1
      ensures image == old(image) && deviceMemory == old(deviceMemory)
      ensures device.log == old(device.log) + [DeviceCall.CreateImageView(imageView, ViewCreateInfo(format, aspectMask, levelCount, viewType))]
    {
      var view := device.NewHandle();
      device.Issue(DeviceCall.CreateImageView(view, ViewCreateInfo(format, aspectMask, levelCount, viewType)));
      imageView := view;
    }

    /** The calls of ~Image followed by ~IMappable: view, then image, then memory. */
    function TeardownCalls(): (calls: seq<DeviceCall>)
      reads this
      ensures DestroyImageView(imageView) in calls <==> imageView != NULL_HANDLE
      ensures DestroyImage(image) in calls <==> deviceMemory != NULL_HANDLE
      ensures FreeMemory(deviceMemory) in calls <==> deviceMemory != NULL_HANDLE
      ensures imageView != NULL_HANDLE ==> calls[0] == DestroyImageView(imageView)
      ensures deviceMemory != NULL_HANDLE ==> calls[|calls| - 2] == DestroyImage(image) && calls[|calls| - 1] == FreeMemory(deviceMemory)
    {
      (if imageView != NULL_HANDLE then [DestroyImageView(imageView)] else [])
      + (if deviceMemory != NULL_HANDLE then [DestroyImage(image)] else [])
      + ReleaseCalls(deviceMemory)
    }

    /** Destruction of the wrapper. */
    method Destroy()
      modifies device
      ensures device.nextHandle == old(device.nextHandle)
      ensures device.log == old(device.log) + TeardownCalls()
    {
      if imageView != NULL_HANDLE {
        device.Issue(DestroyImageView(imageView));
      }
      if deviceMemory != NULL_HANDLE {
        device.Issue(DestroyImage(image));
      }
      ReleaseDeviceMemory(device, deviceMemory);
    }
  }

  /**
   * A swapchain image adopted by the engine and given a view: tearing the
   * wrapper down destroys the view and nothing else.
   */
  method SwapchainImageLifecycle(device: Device, swapchainImage: Handle, format: Format)
    modifies device
    ensures var view := old(device.nextHandle);
            device.log == old(device.log)
              + [ CreateImageView(view, ImageViewCreateInfo(swapchainImage, View2D, format,
                    ComponentMapping(SwizzleIdentity, SwizzleIdentity, SwizzleIdentity, SwizzleIdentity),
                    ImageSubresourceRange({AspectColor}, 0, 1, 0, 1))),
                  DestroyImageView(view) ]
  {
    var wrapper := new Image.Wrap(device, swapchainImage);
    wrapper.CreateImageView(format, {AspectColor}, 1, View2D);
    wrapper.Destroy();
  }
}
